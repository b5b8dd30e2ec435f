/** What the engine promises for any sequence of requests, failures and timers. */
module MoonshineTheorems {
  import opened Basics
  import opened MoonshineMachine

  /** Refreshes at least one update interval apart. */
  ghost predicate Spaced(times: seq<real>, interval: real) {
    forall i :: 0 < i < |times| ==> times[i] - times[i-1] >= interval
  }

  /** The changed reports among the first n. */
  function Changes(reports: seq<Report>, n: nat): nat
    requires n <= |reports|
  {
    if n == 0 then 0 else Changes(reports, n - 1) + if reports[n-1].changed then 1 else 0
  }

  /** The text of a client that has had the first n reports and applies only the changed ones. */
  function ClientText(reports: seq<Report>, n: nat): string
    requires n <= |reports|
  {
    if n == 0 then "" else if reports[n-1].changed then reports[n-1].text else ClientText(reports, n - 1)
  }

  /** Every report has the number of changes up to it and the text of the client, and input times
      never go back. */
  ghost predicate ReportsOK(reports: seq<Report>) {
    && (forall i: nat :: i < |reports| ==> ReportOK(reports, i))
    && (forall i :: 0 < i < |reports| ==> reports[i-1].inputMs <= reports[i].inputMs)
  }

  ghost predicate ReportOK(reports: seq<Report>, i: nat)
    requires i < |reports|
  {
    reports[i].revision == Changes(reports, i + 1) && reports[i].text == ClientText(reports, i + 1)
  }

  ghost predicate ReportInv(reports: seq<Report>, revision: nat, lastText: string, samples: nat) {
    && ReportsOK(reports) && revision == Changes(reports, |reports|) && lastText == ClientText(reports, |reports|)
    && (|reports| > 0 ==> reports[|reports|-1].inputMs <= InputMs(samples))
  }

  ghost predicate RefreshInv(cfg: Config, refreshes: seq<real>, lastAt: real) {
    Spaced(refreshes, cfg.updateInterval) && (|refreshes| > 0 ==> refreshes[|refreshes|-1] <= lastAt)
  }

  ghost predicate SessionInv(cfg: Config, s: State) {
    && ReportInv(s.reports, s.revision, s.lastText, s.samples) && RefreshInv(cfg, s.refreshes, s.lastAt)
    && (|s.refreshes| > 0 <==> s.snapshot.Some?)
    && (s.snapshot.Some? ==> s.snapshot.value.text == s.lastText && s.snapshot.value.revision == s.revision)
  }

  ghost predicate Inv(cfg: Config, s: State) {
    && 0.0 <= s.clock && s.lastAt <= s.clock
    && (s.stream ==> s.loaded.Some? && s.timer.NoTimer?)
    && (!s.stream ==>
        s.reports == [] && s.refreshes == [] && s.snapshot.None? && s.samples == 0 && s.revision == 0
        && s.lastText == "")
    && (s.timer.Spent? ==> s.fired > 0)
    && SessionInv(cfg, s)
  }

  lemma EmptySession(cfg: Config, s: State)
    requires s.reports == [] && s.refreshes == [] && s.snapshot.None? && s.revision == 0 && s.lastText == ""
    ensures SessionInv(cfg, s)
  {}

  lemma {:induction false} SameBefore(reports: seq<Report>, r: Report, n: nat)
    requires n <= |reports|
    ensures Changes(reports + [r], n) == Changes(reports, n) && ClientText(reports + [r], n) == ClientText(reports, n)
  {
    if n > 0 { SameBefore(reports, r, n - 1); }
  }

  lemma ReportAdded(reports: seq<Report>, revision: nat, lastText: string, samples: nat, r: Report)
    requires ReportInv(reports, revision, lastText, samples) && r.inputMs >= InputMs(samples)
    requires r.revision == revision + (if r.changed then 1 else 0) && (!r.changed ==> r.text == lastText)
    ensures ReportsOK(reports + [r])
    ensures Changes(reports + [r], |reports| + 1) == r.revision && ClientText(reports + [r], |reports| + 1) == r.text
  {
    var all := reports + [r];
    SameBefore(reports, r, |reports|);
    forall i: nat | i < |all| ensures ReportOK(all, i) {
      if i < |reports| { ReportStays(reports, r, i); }
    }
  }

  lemma ReportStays(reports: seq<Report>, r: Report, i: nat)
    requires i < |reports| && ReportOK(reports, i)
    ensures ReportOK(reports + [r], i)
  {
    SameBefore(reports, r, i + 1);
  }

  lemma InputMsGrows(a: nat, b: nat)
    requires a <= b
    ensures InputMs(a) <= InputMs(b)
  {}

  lemma UpdateKeeps(cfg: Config, s: State, t: Transcript, final: bool)
    requires ReportInv(s.reports, s.revision, s.lastText, s.samples) && RefreshInv(cfg, s.refreshes, s.lastAt)
             && |s.refreshes| > 0
    ensures SessionInv(cfg, Updated(s, t, final))
  {
    ReportAdded(s.reports, s.revision, s.lastText, s.samples, Updated(s, t, final).snapshot.value);
  }

  lemma ThrottledKeeps(cfg: Config, s: State, count: nat, now: real)
    requires Inv(cfg, s) && s.stream && s.clock <= now && Throttled(cfg, s, now)
    ensures Inv(cfg, Repeated(s.(samples := s.samples + count, clock := now)))
  {
    var samples := s.samples + count;
    InputMsGrows(s.samples, samples);
    ReportAdded(s.reports, s.revision, s.lastText, s.samples,
                s.snapshot.value.(inputMs := InputMs(samples), changed := false, final := false));
  }

  lemma SpacedMore(times: seq<real>, now: real, interval: real)
    requires Spaced(times, interval) && (|times| > 0 ==> now - times[|times|-1] >= interval)
    ensures Spaced(times + [now], interval)
  {}

  lemma RefreshKeeps(cfg: Config, s: State, count: nat, now: real, t: Transcript)
    requires Inv(cfg, s) && s.stream && s.clock <= now && !Throttled(cfg, s, now)
    ensures Inv(cfg, Updated(s.(samples := s.samples + count, clock := now, lastAt := now,
                                refreshes := s.refreshes + [now]), t, false))
  {
    InputMsGrows(s.samples, s.samples + count);
    SpacedMore(s.refreshes, now, cfg.updateInterval);
    UpdateKeeps(cfg, s.(samples := s.samples + count, clock := now, lastAt := now, refreshes := s.refreshes + [now]),
                t, false);
  }

  /** A refresh that raises. */
  lemma RaiseKeeps(cfg: Config, s: State, count: nat, now: real)
    requires Inv(cfg, s) && s.stream && s.clock <= now && !Throttled(cfg, s, now)
    ensures Inv(cfg, s.(samples := s.samples + count, clock := now, lastAt := now,
                        refreshes := if s.snapshot.Some? then s.refreshes + [now] else s.refreshes))
  {
    InputMsGrows(s.samples, s.samples + count);
    SpacedMore(s.refreshes, now, cfg.updateInterval);
  }

  lemma FeedKeeps(cfg: Config, s: State, count: nat, takes: bool, now: real, refresh: Option<Transcript>)
    requires Inv(cfg, s) && s.clock <= now
    ensures Inv(cfg, FeedStep(cfg, s, count, takes, now, refresh))
  {
    if s.stream && takes {
      if Throttled(cfg, s, now) { ThrottledKeeps(cfg, s, count, now); }
      else if refresh.None? { RaiseKeeps(cfg, s, count, now); }
      else { RefreshKeeps(cfg, s, count, now, refresh.value); }
    }
  }

  lemma ClosedKeeps(cfg: Config, s: State)
    requires 0.0 <= s.clock && (s.stream || Inv(cfg, s))
    ensures var u := Closed(s);
            && !u.stream && u.reports == [] && u.refreshes == [] && u.snapshot.None? && u.samples == 0
               && u.revision == 0
            && u.lastText == "" && u.lastAt <= u.clock && SessionInv(cfg, u)
  {
    EmptySession(cfg, Closed(s));
  }

  lemma LoadedKeeps(cfg: Config, s: State, language: Language, loads: bool)
    requires Inv(cfg, s)
    ensures Inv(cfg, Loaded(s, language, loads))
  {
    ClosedKeeps(cfg, s);
  }

  lemma BeginKeeps(cfg: Config, s: State, language: Language, loads: bool, opens: bool, starts: bool)
    requires Inv(cfg, s)
    ensures Inv(cfg, BeginStep(s, language, loads, opens, starts))
  {
    ClosedKeeps(cfg, s.(timer := NoTimer));
    LoadedKeeps(cfg, Closed(s.(timer := NoTimer)), language, loads);
  }

  lemma NextKeeps(cfg: Config, s: State, a: Step)
    requires Inv(cfg, s) && Enabled(s, a)
    ensures Inv(cfg, Next(cfg, s, a))
  {
    match a
    case Load(language, loads) => LoadedKeeps(cfg, s, language, loads);
    case Begin(language, loads, opens, starts) => BeginKeeps(cfg, s, language, loads, opens, starts);
    case Feed(count, takes, now, refresh) => FeedKeeps(cfg, s, count, takes, now, refresh);
    case Finalize(stops, now, refresh) => ClosedKeeps(cfg, s.(clock := now));
    case Transcribe(language, loads) => LoadedKeeps(cfg, s, language, loads);
    case TimerFires =>
    case _ => ClosedKeeps(cfg, s);
  }

  lemma {:induction false} RunInv(cfg: Config, run: seq<State>, steps: seq<Step>, i: nat)
    requires IsRun(cfg, run, steps) && i < |run|
    ensures Inv(cfg, run[i])
  {
    if i == 0 {
      EmptySession(cfg, INIT);
    } else {
      RunInv(cfg, run, steps, i - 1);
      NextKeeps(cfg, run[i-1], steps[i-1]);
    }
  }

  // ---------- what follows for every run ----------

  /** An open session has a loaded model and no idle timer that could still run out. */
  lemma OpenMeansLoaded(cfg: Config, run: seq<State>, steps: seq<Step>, i: nat)
    requires IsRun(cfg, run, steps) && i < |run| && run[i].stream
    ensures run[i].loaded.Some? && run[i].timer.NoTimer?
  {
    RunInv(cfg, run, steps, i);
  }

  /** k refreshes of feed, counted from the first successful one of the session, span at least k - 1
      update intervals. */
  lemma {:induction false} SpanOf(times: seq<real>, interval: real)
    requires Spaced(times, interval) && |times| > 0
    ensures times[|times|-1] - times[0] >= (|times| - 1) as real * interval
    decreases |times|
  {
    if |times| > 1 {
      var front := times[..|times|-1];
      SpanOf(front, interval);
      assert times[|times|-1] - times[|times|-2] >= interval;
      assert (|times| - 1) as real * interval == (|times| - 2) as real * interval + interval;
    }
  }

  lemma ThrottleLaw(cfg: Config, run: seq<State>, steps: seq<Step>, i: nat)
    requires IsRun(cfg, run, steps) && i < |run| && run[i].refreshes != []
    ensures var r := run[i].refreshes; r[|r|-1] - r[0] >= (|r| - 1) as real * cfg.updateInterval
  {
    RunInv(cfg, run, steps, i);
    SpanOf(run[i].refreshes, cfg.updateInterval);
  }

  /** `revision` counts the changed reports of the session, and every report says so up to itself; a
      client that applies only changed reports always holds the latest text, so an unchanged report
      repeats it; input times never go back. */
  lemma RevisionLaw(cfg: Config, run: seq<State>, steps: seq<Step>, i: nat, j: nat)
    requires IsRun(cfg, run, steps) && i < |run| && j < |run[i].reports|
    ensures var s, all := run[i], run[i].reports;
            && s.revision == Changes(all, |all|) && s.lastText == ClientText(all, |all|)
            && all[j].revision == Changes(all, j + 1) && all[j].text == ClientText(all, j + 1)
            && (j > 0 ==> all[j-1].inputMs <= all[j].inputMs)
  {
    RunInv(cfg, run, steps, i);
    assert ReportOK(run[i].reports, j);
  }

  /** When feed refreshes, and what it reports. Without a report so far, or at least one update interval
      after the last attempt to refresh, it refreshes, notes the time, and reports the new text; before,
      it repeats the last text. Milliseconds are those of 16000 samples a second. */
  lemma FeedReports(cfg: Config, run: seq<State>, steps: seq<Step>, i: nat, count: nat, now: real,
                    refresh: Option<Transcript>)
    requires IsRun(cfg, run, steps) && i < |steps| && run[i].stream && steps[i] == Feed(count, true, now, refresh)
    ensures var s, t := run[i], run[i+1];
            t.samples == s.samples + count
            && (s.snapshot.Some? && now - s.lastAt < cfg.updateInterval ==>
                  && t.lastAt == s.lastAt
                  && t.reports == s.reports + [Report(s.lastText, (s.samples + count) * 1000 / 16000,
                                                      s.snapshot.value.bufferedMs, s.revision, false, false)])
            && (s.snapshot.None? || now - s.lastAt >= cfg.updateInterval ==>
                  && t.lastAt == now
                  && (refresh.None? ==> t.reports == s.reports && t.lastText == s.lastText)
                  && (refresh.Some? ==>
                        var inputMs := (s.samples + count) * 1000 / 16000;
                        var behind := inputMs - refresh.value.committedMs;
                        var changed := refresh.value.text != s.lastText;
                        t.lastText == refresh.value.text
                        && t.reports == s.reports
                           + [Report(refresh.value.text, inputMs, if behind > 0 then behind else 0,
                                                            if changed then s.revision + 1 else s.revision, changed,
                                                            false)]))
  {
    RunInv(cfg, run, steps, i);
    assert run[i+1] == Next(cfg, run[i], steps[i]);
  }

  /** After a request that leaves no session open the idle timer runs, if there is one; once it runs
      out and gets the lock, the model is gone. */
  lemma IdleModelIsUnloaded(cfg: Config, run: seq<State>, steps: seq<Step>, i: nat)
    requires IsRun(cfg, run, steps) && i < |steps| && !run[i+1].stream
    requires match steps[i] {
               case Reset => true
               case Finalize(_, _, _) => run[i].stream
               case Transcribe(language, loads) => loads || run[i].loaded == Some(language)
               case _ => false
             }
    ensures run[i+1].timer == if cfg.idleSeconds > 0.0 then Waiting else NoTimer
    ensures cfg.idleSeconds > 0.0 ==>
              var late := Next(cfg, run[i+1], TimerFires);
              && Enabled(run[i+1], TimerFires) && Enabled(late, TimerUnloads)
              && Next(cfg, late, TimerUnloads).loaded.None?
  {
    assert run[i+1] == Next(cfg, run[i], steps[i]);
  }

  /** finalize closes the session; the report it gives continues the laws of the others. */
  lemma FinalLaw(cfg: Config, run: seq<State>, steps: seq<Step>, i: nat, t: Transcript)
    requires IsRun(cfg, run, steps) && i < |run| && run[i].stream
    ensures var s, r := run[i], FinalReport(run[i], t);
            && r.final && r.text == t.text && r.inputMs == s.samples * 1000 / 16000
            && r.bufferedMs == (if r.inputMs > t.committedMs then r.inputMs - t.committedMs else 0)
            && r.changed == (t.text != s.lastText)
            && r.text == ClientText(s.reports + [r], |s.reports| + 1)
               && r.revision == Changes(s.reports + [r], |s.reports| + 1)
  {
    RunInv(cfg, run, steps, i);
    ReportAdded(run[i].reports, run[i].revision, run[i].lastText, run[i].samples, FinalReport(run[i], t));
  }

  // ---------- timers that come too late ----------

  /** A session is open after every step of a run. */
  ghost predicate StaysOpen(run: seq<State>, i: nat, n: nat) {
    i <= n < |run| && forall k :: i <= k <= n ==> run[k].stream
  }

  /** No idle timer runs out while a session is open: those that wait for the lock ran out before. */
  lemma {:induction false} NoNewTimers(cfg: Config, run: seq<State>, steps: seq<Step>, i: nat, n: nat)
    requires IsRun(cfg, run, steps) && StaysOpen(run, i, n)
    ensures run[n].fired <= run[i].fired
    decreases n
  {
    if i < n {
      assert StaysOpen(run, i, n - 1);
      NoNewTimers(cfg, run, steps, i, n - 1);
      RunInv(cfg, run, steps, n - 1);
      assert run[n] == Next(cfg, run[n-1], steps[n-1]);
    }
  }

  /** While a session is open an idle timer can close it exactly if one had already run out, and was
      waiting for the lock, before. */
  lemma TimersSpareSession(cfg: Config, run: seq<State>, steps: seq<Step>, i: nat, n: nat)
    requires IsRun(cfg, run, steps) && StaysOpen(run, i, n)
    ensures Enabled(run[n], TimerUnloads) ==> run[i].fired > 0 && !Next(cfg, run[n], TimerUnloads).stream
    ensures run[i].fired > 0 ==> Enabled(run[i], TimerUnloads) && !Next(cfg, run[i], TimerUnloads).stream
  {
    NoNewTimers(cfg, run, steps, i, n);
  }

  /** This happens: a buffered request, a timer that runs out, a session that begins before the
      timer's thread gets the lock, and the session is gone. */
  lemma LateTimerClosesSession(cfg: Config, l: Language) returns (run: seq<State>, steps: seq<Step>)
    requires cfg.idleSeconds > 0.0
    ensures IsRun(cfg, run, steps) && |run| == 5 && run[3].stream && run[3].timer.NoTimer? && steps[3] == TimerUnloads
            && !run[4].stream
  {
    steps := [Transcribe(l, true), TimerFires, Begin(l, true, true, true), TimerUnloads];
    var a := Next(cfg, INIT, steps[0]);
    var b := Next(cfg, a, steps[1]);
    var c := Next(cfg, b, steps[2]);
    run := [INIT, a, b, c, Next(cfg, c, steps[3])];
  }

  // ---------- requests beside a session ----------

  /** What ends an open session, apart from the begin of the next one: a successful finalize, a reset,
      an unload, a late timer, and every load or buffered request in another language, whether its own
      model loads or not. */
  lemma SessionEnds(cfg: Config, run: seq<State>, steps: seq<Step>, i: nat)
    requires IsRun(cfg, run, steps) && i < |steps| && run[i].stream && !steps[i].Begin?
    ensures !run[i+1].stream <==>
            match steps[i] {
              case Load(language, _) => run[i].loaded != Some(language)
              case Transcribe(language, _) => run[i].loaded != Some(language)
              case Finalize(stops, _, refresh) => stops && refresh.Some?
              case Feed(_, _, _, _) => false
              case _ => true
            }
  {
    RunInv(cfg, run, steps, i);
    assert Enabled(run[i], steps[i]);
  }

  /** A begin whose stream cannot be created leaves a loaded model without a timer, exactly if the
      model was there or could be loaded. */
  lemma FailedBegin(cfg: Config, run: seq<State>, steps: seq<Step>, i: nat, l: Language, loads: bool, opens: bool,
                    starts: bool)
    requires IsRun(cfg, run, steps) && i < |steps| && steps[i] == Begin(l, loads, opens, starts)
    ensures run[i+1].timer.NoTimer?
    ensures run[i+1].loaded.Some? && !run[i+1].stream <==> (run[i].loaded == Some(l) || loads) && !opens
  {
    assert run[i+1] == Next(cfg, run[i], steps[i]);
  }

  /** The next request that reaches the model. */
  predicate Request(a: Step) { a.Load? || a.Begin? || a.Reset? || a.Unload? || a.Transcribe? }

  /** Such a model stays loaded, with no timer to unload it, until a request comes. */
  lemma {:induction false} ModelStays(cfg: Config, run: seq<State>, steps: seq<Step>, i: nat, n: nat)
    requires IsRun(cfg, run, steps) && i <= n < |run| && forall k :: i <= k < n ==> !Request(steps[k])
    requires run[i].loaded.Some? && !run[i].stream && run[i].timer.NoTimer? && run[i].fired == 0
    ensures run[n].loaded == run[i].loaded && !run[n].stream && run[n].timer.NoTimer? && run[n].fired == 0
  {
    if i < n {
      ModelStays(cfg, run, steps, i, n - 1);
      assert Enabled(run[n-1], steps[n-1]);
    }
  }
}
