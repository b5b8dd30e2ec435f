/** The engine of the Moonshine sidecar: one method an entry point, each proved to take exactly the
    step of the state machine. */
module Moonshine {
  import opened Basics
  import opened MoonshineMachine

  /** What a request gets: a report, the error for a missing session, or the error of a library. */
  datatype Answer = Reported(report: Report) | NoSession | Raised

  class Engine {
    const cfg: Config
    var loaded: Option<Language>
    var idleTimer: Timer
    var stream: bool
    var inputSamples: nat
    var revision: nat
    var lastText: string
    var lastUpdateAt: real
    var lastSnapshot: Option<Report>
    ghost var fired: nat
    ghost var clock: real
    ghost var reports: seq<Report>
    ghost var refreshes: seq<real>

    ghost function View(): State
      reads this
    {
      State(loaded, idleTimer, fired, stream, inputSamples, revision, lastText, lastUpdateAt, lastSnapshot, clock,
            reports, refreshes)
    }

    constructor (cfg: Config)
      ensures this.cfg == cfg && View() == INIT
    {
      this.cfg := cfg;
      loaded, idleTimer, stream, inputSamples, revision, lastText := None, NoTimer, false, 0, 0, "";
      lastUpdateAt, lastSnapshot := 0.0, None;
      fired, clock, reports, refreshes := 0, 0.0, [], [];
    }

    method ResetStreamLocked()
      modifies this
      ensures View() == Closed(old(View()))
    {
      if !stream { return; }
      stream := false;
      inputSamples, revision, lastText, lastUpdateAt, lastSnapshot := 0, 0, "", 0.0, None;
      reports, refreshes := [], [];
    }

    method UnloadLocked()
      modifies this
      ensures View() == Unloaded(old(View()))
    {
      ResetStreamLocked();
      if loaded.None? { return; }
      loaded := None;
    }

    method CancelIdleTimerLocked()
      modifies this`idleTimer
      ensures idleTimer == NoTimer
    {
      if idleTimer != NoTimer {
        idleTimer := NoTimer;
      }
    }

    method ResetIdleTimerLocked()
      modifies this`idleTimer
      ensures View() == Rearmed(cfg, old(View()))
    {
      CancelIdleTimerLocked();
      if cfg.idleSeconds > 0.0 && !stream {
        idleTimer := Waiting;
      }
    }

    method LoadLocked(language: Language, loads: bool) returns (ok: bool)
      modifies this
      ensures View() == Loaded(old(View()), language, loads)
      ensures ok <==> loaded == Some(language)
    {
      if loaded == Some(language) { return true; }
      if loaded.Some? { UnloadLocked(); }
      if !loads { return false; }
      loaded := Some(language);
      return true;
    }

    /** The end of begin, once the stream has been created. */
    method OpenLocked(starts: bool)
      modifies this
      ensures View() == Opened(old(View()), starts)
    {
      stream := true;
      if !starts { return; }
      inputSamples, revision, lastText, lastUpdateAt, lastSnapshot := 0, 0, "", 0.0, None;
      reports, refreshes := [], [];
    }

    method Begin(language: Language, loads: bool, opens: bool, starts: bool) returns (ok: bool)
      modifies this
      ensures View() == BeginStep(old(View()), language, loads, opens, starts)
      ensures ok ==> stream && loaded == Some(language)
    {
      CancelIdleTimerLocked();
      ResetStreamLocked();
      ok := LoadLocked(language, loads);
      if !ok || !opens { return false; }
      OpenLocked(starts);
      return starts;
    }

    method UpdateLocked(t: Transcript, final: bool) returns (report: Report)
      modifies this
      ensures View() == Updated(old(View()), t, final) && lastSnapshot == Some(report)
    {
      var changed := t.text != lastText;
      if changed {
        revision := revision + 1;
        lastText := t.text;
      }
      var inputMs := inputSamples * 1000 / 16000;
      var behind := inputMs - t.committedMs;
      report := Report(t.text, inputMs, if behind > 0 then behind else 0, revision, changed, final);
      lastSnapshot := Some(report);
      reports := reports + [report];
    }

    method Feed(count: nat, takes: bool, now: real, refresh: Option<Transcript>) returns (answer: Answer)
      requires clock <= now
      modifies this
      ensures View() == FeedStep(cfg, old(View()), count, takes, now, refresh)
      ensures answer == (if !old(stream) then NoSession
                         else if !takes then Raised
                         else if refresh.Some? || (old(lastSnapshot).Some?
                                                   && now - old(lastUpdateAt) < cfg.updateInterval)
                           then Reported(reports[|reports|-1])
                         else Raised)
    {
      if !stream { return NoSession; }
      if !takes { return Raised; }
      inputSamples := inputSamples + count;
      clock := now;
      if lastSnapshot.Some? && now - lastUpdateAt < cfg.updateInterval {
        var report := lastSnapshot.value.(inputMs := inputSamples * 1000 / 16000, changed := false, final := false);
        reports := reports + [report];
        return Reported(report);
      }
      lastUpdateAt := now;
      refreshes := if lastSnapshot.Some? || refresh.Some? then refreshes + [now] else refreshes;
      if refresh.None? { return Raised; }
      var report := UpdateLocked(refresh.value, false);
      return Reported(report);
    }

    method Finalize(stops: bool, now: real, refresh: Option<Transcript>) returns (answer: Answer)
      requires clock <= now
      modifies this
      ensures View() == FinalizeStep(cfg, old(View()), stops, now, refresh)
      ensures answer == (if !old(stream) then NoSession else if !stops || refresh.None? then Raised
                         else Reported(FinalReport(old(View()), refresh.value)))
    {
      if !stream { return NoSession; }
      if !stops { return Raised; }
      lastUpdateAt, clock := now, now;
      if refresh.None? { return Raised; }
      var report := UpdateLocked(refresh.value, true);
      ResetStreamLocked();
      ResetIdleTimerLocked();
      return Reported(report);
    }

    method Reset()
      modifies this
      ensures View() == Next(cfg, old(View()), MoonshineMachine.Reset)
    {
      ResetStreamLocked();
      ResetIdleTimerLocked();
    }

    /** For a request and, with `late`, for the thread of a timer that has run out. */
    method Unload(ghost late: bool)
      requires late ==> fired > 0
      modifies this
      ensures View() == Next(cfg, old(View()), if late then TimerUnloads else MoonshineMachine.Unload)
    {
      fired := if late then fired - 1 else fired;
      CancelIdleTimerLocked();
      UnloadLocked();
    }

    method Transcribe(language: Language, loads: bool) returns (ok: bool)
      modifies this
      ensures View() == Next(cfg, old(View()), MoonshineMachine.Transcribe(language, loads))
      ensures ok <==> loaded == Some(language)
    {
      ok := LoadLocked(language, loads);
      if ok { ResetIdleTimerLocked(); }
    }
  }
}
