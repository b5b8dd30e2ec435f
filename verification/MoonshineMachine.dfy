/** The Moonshine sidecar's engine as a state machine. Every method runs under the engine's lock and
    is one step; a timer that has run out waits for the lock like any other thread. */
module MoonshineMachine {
  import opened Basics

  /** Languages are only compared. */
  datatype Language = Language(token: int)

  /** A refreshed transcript: the text of its lines, and the end of the last finished line. */
  datatype Transcript = Transcript(text: string, committedMs: int)

  /** What feed and finalize report. */
  datatype Report = Report(text: string, inputMs: nat, bufferedMs: int, revision: nat, changed: bool, final: bool)

  /** The timer that `idle_timer` refers to; a spent one has run out and its thread waits for the lock. */
  datatype Timer = NoTimer | Waiting | Spent

  datatype Config = Config(updateInterval: real, idleSeconds: real)

  /** `fired` counts the timers that have run out and wait for the lock. The last three fields are
      history of the open session: its reports, the refreshes of feed from the first successful one
      on, and the samples fed. */
  datatype State = State(
    loaded: Option<Language>, timer: Timer, fired: nat,
    stream: bool, samples: nat, revision: nat, lastText: string, lastAt: real, snapshot: Option<Report>,
    clock: real, reports: seq<Report>, refreshes: seq<real>)

  const INIT := State(None, NoTimer, 0, false, 0, 0, "", 0.0, None, 0.0, [], [])

  /** Steps with what the libraries make of them: `loads`, `opens`, `starts`, `takes` and `stops` tell
      whether the call into Moonshine succeeds, and no transcript is a refresh that raises. */
  datatype Step =
    | Load(language: Language, loads: bool)
    | Begin(language: Language, loads: bool, opens: bool, starts: bool)
    | Feed(count: nat, takes: bool, now: real, refresh: Option<Transcript>)
    | Finalize(stops: bool, now: real, refresh: Option<Transcript>)
    | Reset
    | Unload
    | Transcribe(language: Language, loads: bool)
    | TimerFires
    | TimerUnloads

  function InputMs(samples: nat): nat { samples * 1000 / 16000 }

  /** _reset_stream_locked. */
  function Closed(s: State): State {
    if !s.stream then s
    else s.(stream := false, samples := 0, revision := 0, lastText := "", lastAt := 0.0, snapshot := None,
            reports := [], refreshes := [])
  }

  /** _unload_locked. */
  function Unloaded(s: State): State { Closed(s).(loaded := None) }

  /** _load_locked; a model of another language is released first, whatever comes after. */
  function Loaded(s: State, language: Language, loads: bool): State {
    if s.loaded == Some(language) then s
    else
      var free := if s.loaded.Some? then Unloaded(s) else s;
      if loads then free.(loaded := Some(language)) else free
  }

  /** _reset_idle_timer_locked. */
  function Rearmed(cfg: Config, s: State): State {
    s.(timer := if cfg.idleSeconds > 0.0 && !s.stream then Waiting else NoTimer)
  }

  function BeginStep(s: State, language: Language, loads: bool, opens: bool, starts: bool): State {
    var ready := Loaded(Closed(s.(timer := NoTimer)), language, loads);
    if ready.loaded != Some(language) || !opens then ready
    else Opened(ready, starts)
  }

  /** A stream that was created; the counters start again once it runs. */
  function Opened(s: State, starts: bool): State {
    if !starts then s.(stream := true)
    else s.(stream := true, samples := 0, revision := 0, lastText := "", lastAt := 0.0, snapshot := None,
            reports := [], refreshes := [])
  }

  /** _update_locked after a successful refresh. */
  function Updated(s: State, t: Transcript, final: bool): State {
    var changed := t.text != s.lastText;
    var revision := if changed then s.revision + 1 else s.revision;
    var inputMs := InputMs(s.samples);
    var buffered := if inputMs - t.committedMs > 0 then inputMs - t.committedMs else 0;
    var report := Report(t.text, inputMs, buffered, revision, changed, final);
    s.(revision := revision, lastText := t.text, snapshot := Some(report), reports := s.reports + [report])
  }

  /** _unchanged_snapshot_locked. */
  function Repeated(s: State): State
    requires s.snapshot.Some?
  {
    var report := s.snapshot.value.(inputMs := InputMs(s.samples), changed := false, final := false);
    s.(reports := s.reports + [report])
  }

  /** feed refreshes only once per update interval. */
  predicate Throttled(cfg: Config, s: State, now: real) {
    s.snapshot.Some? && now - s.lastAt < cfg.updateInterval
  }

  function FeedStep(cfg: Config, s: State, count: nat, takes: bool, now: real, refresh: Option<Transcript>): State {
    if !s.stream || !takes then s
    else
      var fed := s.(samples := s.samples + count, clock := now);
      if Throttled(cfg, s, now) then Repeated(fed)
      else
        var tried := fed.(lastAt := now, refreshes := if s.snapshot.Some? || refresh.Some? then s.refreshes + [now]
                          else s.refreshes);
        if refresh.None? then tried else Updated(tried, refresh.value, false)
  }

  /** finalize; its report is the last of the session, which it closes. */
  function FinalReport(s: State, t: Transcript): Report { Updated(s, t, true).snapshot.value }

  function FinalizeStep(cfg: Config, s: State, stops: bool, now: real, refresh: Option<Transcript>): State {
    if !s.stream || !stops then s
    else if refresh.None? then s.(lastAt := now, clock := now)
    else Rearmed(cfg, Closed(s.(clock := now)))
  }

  predicate Enabled(s: State, a: Step) {
    match a
    case Feed(_, _, now, _) => s.clock <= now
    case Finalize(_, now, _) => s.clock <= now
    case TimerFires => s.timer.Waiting?
    case TimerUnloads => s.fired > 0
    case _ => true
  }

  function Next(cfg: Config, s: State, a: Step): State {
    match a
    case Load(language, loads) => Loaded(s, language, loads)
    case Begin(language, loads, opens, starts) => BeginStep(s, language, loads, opens, starts)
    case Feed(count, takes, now, refresh) => FeedStep(cfg, s, count, takes, now, refresh)
    case Finalize(stops, now, refresh) => FinalizeStep(cfg, s, stops, now, refresh)
    case Reset => Rearmed(cfg, Closed(s))
    case Unload => Unloaded(s.(timer := NoTimer))
    case Transcribe(language, loads) =>
      var ready := Loaded(s, language, loads);
      if ready.loaded == Some(language) then Rearmed(cfg, ready) else ready
    case TimerFires => s.(timer := Spent, fired := s.fired + 1)
    case TimerUnloads => if s.fired > 0 then Unloaded(s.(timer := NoTimer, fired := s.fired - 1)) else s
  }

  ghost predicate IsRun(cfg: Config, run: seq<State>, steps: seq<Step>) {
    && |run| == |steps| + 1 && run[0] == INIT
    && forall i {:trigger steps[i]} ::
       0 <= i < |steps| ==> Enabled(run[i], steps[i]) && run[i+1] == Next(cfg, run[i], steps[i])
  }
}
