# Verification of the audio server

This project models the parts of the audio server in which a small slip is hard to see, and proves
what they promise. Two of them are concurrent controllers, modelled as state machines in which every
section under a mutex is one step and any steps of other threads may come in between; the rest are
algorithms with loops, proved against independent specifications.

* **Job queue** (`Queue*.dfy`). First-in-first-out queues with any number of workers per provider, an
  exclusive resource group that is handed from provider to provider after a quiet period, warm flags
  guarded by lifecycle mutexes, idle timers that may fire late, and the status of jobs.
  `QueueMachine` has the steps, `QueueInvariants` and `QueuePreservation` the inductive invariant,
  `QueueTheorems` what follows for every run, `QueueProgress` that nothing queued is ever stuck,
  `QueueOutcomes` what becomes of jobs and groups, told from the outcomes and clocks along the run,
  `QueueIdle`, `QueueLateIdle` and `QueueIdleMeets` when providers are unloaded, and `QueueManager` the
  manager as a class whose methods are proved to take exactly those steps.
* **GPU residency** (`Residency*.dfy`). The execution lease, the start of an instance with its memory
  budget, least-recently-used eviction and out-of-memory retries, the idle watcher and `StopAll`, for
  any number of threads. The loops of a start lock one instance at a time, so each of their turns is a
  step. `ResidencyMachine` has the steps and `ResidencyInvariants` the inductive invariant;
  `ResidencyTheorems`, `ResidencyBudget`, `ResidencyStarts` and `ResidencyOutcomes` say what follows for
  every run, and `ResidencyWitness` is a run worth knowing. `ResidencyManager` is the manager as a class, with its
  loops uninterrupted, over the functions of `ResidencyEviction`. `AnalysisLeases` is the hand-over of
  the lease between the stages of an analysis.
* **Algorithms.** Levenshtein's distance with a rolling row (`EditDistance`), the sentence packer and
  the rewriting of long requests into lines (`Words`, `Segment`, `SegmentTheorems`, `AutoSegment`), the
  incremental event reader (`Sse`), WAV files (`Wav`, `WavWriters`), the corpus recorder and the live
  capture loop (`Corpus`, `LiveCapture`), the diarization sweep (`MergeTurns`, `MergeTurnsTheorems`,
  `MergeTurnsSilence`, `SpeakerSamples`), and the live engine of the Moonshine sidecar (`Moonshine*.dfy`).

`Basics` has what several modules share. `dafny verify dfyconfig.toml` checks everything.

## Where the code does less than one might expect

* Warm and Idle of a provider exclude each other, but fireIdle lets go of the manager's mutex before it
  takes the lifecycle mutex. An unload that was decided before a job came in may therefore run beside
  the synthesis of that job, also after its Warm, while the warm flag stays set. As a job is dequeued,
  this can still come about if and only if an unload waits for the lifecycle mutex, or Idle is inside
  already while the provider is marked warm or a worker is about to mark it so
  (`QueueIdleMeets.IdleMeetsJob`); `QueueLateIdle.LateUnload` is a run in which it does.
* A start that runs out of memory gives up when its scan meets no idle resident. The scan looks at one
  instance at a time, so the one resident it met under lease may be idle again when it gives up
  (`ResidencyWitness.GivesUpBesideIdle`). Every resident that is left is leased at that moment if and
  only if no lease is given back after the scan has met it (`ResidencyStarts.FailsBesideLeasedOnly`).
* A timer of the Moonshine sidecar that has run out while a session begins still unloads the model
  and closes the session, although the code means never to unload underneath one. This happens exactly
  if the timer's thread was already waiting for the lock (`MoonshineTheorems.TimersSpareSession`,
  `MoonshineTheorems.LateTimerClosesSession`).
* `Terminate` cuts off only blanks, tabs and line ends, while words are split at any Unicode white
  space. A chunk of maxWords words that ends with, say, a no-break space exceeds the cap as a line, and
  a line feed inside a sentence gives a line without a terminator. `AutoSegment.LinesWithinCap` says
  exactly when all lines are as they should be, `AutoSegment.SpaceBreaksCap` and
  `AutoSegment.LineFeedBreaksLine` are requests for which they are not. The segmenter of the repository
  strips its sentences (`tts/segment/segment.py:51`), so only another one reaches the first.
* A diarization turn without length inside another speaker's turn makes an overlap of two speakers who
  never speak together
  (`MergeTurnsTheorems.SpeakersAt`, `MergeTurnsTheorems.EmptyTurnCounts`).
* A buffered request of the Moonshine sidecar, or a load, in another language than the open session's
  closes that session, even if the other model cannot be loaded (`MoonshineTheorems.SessionEnds`). A
  begin whose stream cannot be created leaves a loaded model that no timer unloads
  (`MoonshineTheorems.FailedBegin`, `MoonshineTheorems.ModelStays`).
* A sample rate of 2^32 or more, or 2^16 or more channels, does not survive being written to a WAV
  file (`WavWriters.RoundTrip`, `WavWriters.NormalizeTwice`), and the server's own writer does not
  check the size limit that the other two check (`WavWriters.WritersAgree`).
* `cmd/audio/main.go:428-431` says that a model registered with no memory cost is never evicted. The
  eviction loop (`internal/lifecycle/lifecycle.go:365-371`) makes no such exception: it stops an idle
  resident without cost exactly if those before it in last-used order make no room
  (`ResidencyEviction.ZeroCostIsStopped`, `ResidencyEviction.ZeroCostWitness`, and in every run
  `ResidencyStarts.ZeroCostTurn`).
* A WAV file whose last data chunk is odd or empty passes the normaliser unchanged and cannot be parsed
  afterwards (`WavWriters.PassedFilesParse`, `WavWriters.OddFile`).
* A line that starts less than one sample before the recording is kept as starting with it, which
  only rates below 1000 allow (`Corpus.RecordedLines`, `Corpus.EarlyLine`).

## Model

| member | source | states |
|---|---|---|
| QueuePreservation.NextKeeps | internal/queue/queue.go:185-683 | every step of a worker, caller, timer or sweeper, from any state, keeps the inductive invariant of groups, providers, workers and jobs |
| QueuePreservation.RunKeepsInv | internal/queue/queue.go:128-683 | hence the invariant holds in every state of every run |
| QueueTheorems.MutualExclusion | internal/queue/queue.go:406-431 | two workers that hold the same resource group work for the same provider |
| QueueTheorems.ReleaseIsEffective | internal/queue/queue.go:582-597 | `activeJobs` is the number of holders, all of the active provider, so the early return of releaseResource is never taken |
| QueueTheorems.OnlyAcquireSwitches | internal/queue/queue.go:538-580 | no step but a granted acquire changes the active provider of a group |
| QueueTheorems.SwitchOnlyWhenDrained | internal/queue/queue.go:543-563 | when a group changes hands its old provider has neither queued nor running work and nobody holds the group |
| QueueOutcomes.QuietSinceRelease | internal/queue/queue.go:543-597 | in every run that period counts from the release after which nobody has held the group |
| QueueTheorems.FreeGroupIsAvailable | internal/queue/queue.go:543-580 | a free group with queued work is available to the active provider at once if it has work, and to any waiting provider from the end of the quiet period on |
| QueueTheorems.HandOverNeverStuck | internal/queue/queue.go:406-431 | from then on any worker of that provider gets to run the head of its queue by its own next steps and at most one broadcast that is already due |
| QueueProgress.HeadCanBeServed | internal/queue/queue.go:399-597 | no reachable state is stuck: the head of every queue can be dequeued by steps without a submission, also while others hold its group, stand before it there, or the lifecycle mutex is taken |
| QueueProgress.JobCanEnd | internal/queue/queue.go:433-616 | from every reachable state a dequeued job can come to its end |
| QueueTheorems.WarmWhileBusy | internal/queue/queue.go:558-563 | no step turns a provider cold while one of its jobs is between dequeue and finish |
| QueueTheorems.SynthesisRunsWarm | internal/queue/queue.go:446-473 | along every run the warm flag of a lifecycle provider is set from the synthesis of a job on until that job is finished |
| QueueTheorems.WarmAndIdleExclude | internal/queue/queue.go:452-473 | at most one goroutine of a provider is inside Warm or Idle |
| QueueTheorems.IdleTimerBothWays | internal/queue/queue.go:625-663 | a set timer means no active and no queued job; a quiet warm provider with an idle delay always has a timer armed or its handler on the way |
| QueueIdle.UnloadsAreConserved | internal/queue/queue.go:644-663 | along every run the decisions of timer handlers to unload a provider are the calls of Idle that have returned and those still due: none is lost, none made up |
| QueueIdle.LeftAloneIsUnloaded | internal/queue/queue.go:625-663 | from any reachable state a quiet warm lifecycle provider with an idle delay is unloaded by the next steps of its timer, its handler and Idle, and is then cold, without a timer, its lifecycle mutex free |
| QueueIdle.OnlyOldUnloads | internal/queue/queue.go:644-651 | while a job of a provider is between dequeue and finish, no further unload is decided |
| QueueLateIdle.UnloadMeetsJob | internal/queue/queue.go:652-663 | if a job begins while an unload waits and the lifecycle mutex is free, these steps put Idle beside its synthesis |
| QueueIdleMeets.IdleMeetsJob | internal/queue/queue.go:433-473 | from the dequeue of a job, some steps put Idle beside its synthesis if and only if an unload waits, or Idle is inside and the provider is warm or about to be marked so |
| QueueLateIdle.LateUnload | internal/queue/queue.go:652-663 | every configuration with a lifecycle provider that has an idle delay and no group has a run that ends so, after a newer Warm |
| QueueTheorems.JobsAreConserved | internal/queue/queue.go:406-431 | what was submitted is what was dequeued followed by the queue, without repetition; a dequeued job is held by exactly one worker until its channel is closed, which happens once |
| QueueTheorems.UnfinishedJobsStay | internal/queue/queue.go:674-683 | no step, the sweep included, forgets an unfinished job |
| QueueTheorems.StatusMeansPlace | internal/queue/queue.go:185-210 | a job is queued exactly if it stands in its provider's queue |
| QueueOutcomes.OutcomeOfJob | internal/queue/queue.go:433-531 | in every run a queued job that is done has succeeded if and only if it passed the run gate and its synthesis, and the gate, Warm if it was called, and the synthesis all reported success; otherwise it has failed |
| QueueOutcomes.EndOfJob | internal/queue/queue.go:599-616 | `finishedAt` is what the clock read in the step that ended the job, and a job of NewRunningJob has succeeded exactly if that step ended it as a success |
| QueueOutcomes.SweptAfterTimeToLive | internal/queue/queue.go:674-683 | a sweep forgets a job if and only if it is done and ended more than the time to live before |
| QueueOutcomes.ChunksAreCounted | internal/queue/queue.go:361-376 | the chunk counter of a known job is the number of chunks reported for it |
| QueueOutcomes.WarmOnlyWhenCold | internal/queue/queue.go:446-462 | Warm is called only for a provider with a lifecycle that the second look still found cold |
| QueueTheorems.PositionNumbersTheQueue | internal/queue/queue.go:261-277 | Position is k exactly for the k-th job of its queue, so it numbers the queue from 1 |
| QueueTheorems.QueueChanges | internal/queue/queue.go:185-210 | a step leaves a queue alone, appends a new job, or removes its head |
| QueueTheorems.PositionDropsByDequeue | internal/queue/queue.go:261-277 | the position of a waiting job never rises, and drops by one exactly with a dequeue |
| QueueManager.Manager.constructor | internal/queue/queue.go:128-181 | the manager starts in the initial state |
| QueueManager.Manager.Submit | internal/queue/queue.go:185-210 | Submit and SubmitStream take the submit step, or refuse an unknown provider |
| QueueManager.Manager.CheckQueue | internal/queue/queue.go:406-412 | the wait of dequeue |
| QueueManager.Manager.TryAcquire | internal/queue/queue.go:538-580 | one turn of acquireResource takes the acquire step |
| QueueManager.Manager.IsAvailable | internal/queue/queue.go:548-556 | the nested conditions amount to the availability of the group |
| QueueManager.Manager.Pop | internal/queue/queue.go:414-430 | the last section of dequeue takes the head, or nothing if another worker was faster |
| QueueManager.Manager.NeedWarm | internal/queue/queue.go:446-450 | the first look at the warm flag: the lifecycle mutex is asked for exactly if the provider has a lifecycle and is cold |
| QueueManager.Manager.StillCold | internal/queue/queue.go:455-460 | the second look, under the lifecycle mutex, which stays locked exactly if Warm is due |
| QueueManager.Manager.SetWarm | internal/queue/queue.go:462-471 | the flag is set after Warm, whatever else has happened meanwhile |
| QueueManager.Manager.Finish | internal/queue/queue.go:599-616 | finish takes the finish step; `QueueOutcomes.OutcomeOfJob` says which outcome it records |
| QueueManager.Manager.ReleaseResource | internal/queue/queue.go:582-597 | releaseResource takes the release step |
| QueueManager.Manager.StartIdleTimer | internal/queue/queue.go:625-634 | arms a timer exactly for a warm provider with a delay and no timer |
| QueueManager.Manager.CancelIdleTimer | internal/queue/queue.go:637-642 | leaves no timer set |
| QueueManager.Manager.FireIdle | internal/queue/queue.go:644-654 | the part of fireIdle under the mutex takes the fire step |
| QueueManager.Manager.PositionOf | internal/queue/queue.go:261-277 | the search loop computes Position, which is zero for a provider without a queue |
| QueueManager.Manager.NewRunningJob | internal/queue/queue.go:304-320 | registers a job that runs outside the queue |
| QueueManager.Manager.EndDirectJob | internal/queue/queue.go:322-359 | CompleteJob and FailJob end a job, ignore an unknown id, and panic exactly for a job that has ended before |
| QueueManager.Manager.BumpChunk | internal/queue/queue.go:361-376 | counts a chunk of a known job |
| QueueManager.Manager.Sweep | internal/queue/queue.go:674-683 | the loop removes exactly the finished jobs past their time, whenever that time was read |
| ResidencyInvariants.NextKeeps | internal/lifecycle/lifecycle.go:144-461 | every step of any thread keeps mutex ownership, lease counts and what each start knows |
| ResidencyInvariants.RunInv | internal/lifecycle/lifecycle.go:144-461 | hence they hold in every state of every run |
| ResidencyTheorems.OneLease | internal/lifecycle/lifecycle.go:144-164 | at most one lease is out; then its instance is up with `active` one and all others have zero, otherwise all have zero |
| ResidencyTheorems.LeasedIsNeverStopped | internal/lifecycle/lifecycle.go:405-461 | no step, neither eviction, exclusive start, idle watcher nor StopAll, stops a leased instance |
| ResidencyOutcomes.LaunchOutcome | internal/lifecycle/lifecycle.go:200-209 | a healthy launch starts the instance, one that ran out of memory begins a scan for a victim, every other failure ends the start; no other instance goes up or down by it |
| ResidencyOutcomes.ScansOnlyAfterOom | internal/lifecycle/lifecycle.go:204-207 | a start scans for a victim only after a launch that ran out of memory |
| ResidencyOutcomes.StopHasCause | internal/lifecycle/lifecycle.go:288-461 | an instance goes down only in its turn of an exclusive start, an eviction, a retry, its idle watcher or StopAll |
| ResidencyOutcomes.LastUsedIsLastUse | internal/lifecycle/lifecycle.go:150-264 | `lastUsed` is the time of the last look that found the instance up, launch, end of a lease, or bump |
| ResidencyOutcomes.WatcherStopsTheUnused | internal/lifecycle/lifecycle.go:444-461 | an idle watcher stops its instance exactly if it is up without a lease and its last use is longer ago than its timeout |
| ResidencyOutcomes.VictimIsLeastRecent | internal/lifecycle/lifecycle.go:288-316 | the victim of a retry is the least recently used of the idle residents, by their last uses when the scan met them |
| ResidencyOutcomes.CollectedIsLastUse | internal/lifecycle/lifecycle.go:332-346 | the time that the first loop collects for a candidate is its last use when it was looked at |
| ResidencyOutcomes.FirstLook | internal/lifecycle/lifecycle.go:172-195 | which starts fail at the first look, which find the instance up, and which go on |
| ResidencyOutcomes.LaunchesIfRoom | internal/lifecycle/lifecycle.go:332-364 | after the count a start launches at once exactly if its need fits beside all other residents |
| ResidencyOutcomes.ExclusiveStopsOthers | internal/lifecycle/lifecycle.go:405-416 | an exclusive start that comes to its launch has stopped every other instance, except for at most one that was leased in its turn |
| ResidencyOutcomes.StopAllStopsAll | internal/lifecycle/lifecycle.go:418-431 | when StopAll has walked over all instances, none is up |
| ResidencyBudget.RunBudget | internal/lifecycle/lifecycle.go:320-391 | in every state of every run what a start has counted is the sum of the residents' estimates, and a start that launches fits |
| ResidencyBudget.WithinBudget | internal/lifecycle/lifecycle.go:320-391 | in every state of every run without exclusive starts the estimates of the residents stay within the limit |
| ResidencyStarts.EvictsPrefix | internal/lifecycle/lifecycle.go:332-390 | whatever others do, the candidates stand in the order of the times of last use that were collected, the residents stopped for room are exactly those before the present one that were not leased when passed, and there is no room yet while the loop goes on |
| ResidencyStarts.RefusalMeansLease | internal/lifecycle/lifecycle.go:364-391 | a refusal for lack of room happens only when the one resident left was leased when passed, and its estimate and the request exceed the limit |
| ResidencyStarts.AcquireFindsRoom | internal/lifecycle/lifecycle.go:144-170 | a start made by Acquire is never refused for lack of room if its need is within the limit |
| ResidencyStarts.VictimIsStopped | internal/lifecycle/lifecycle.go:309-315 | a chosen victim is always stopped: the check before the stop never fails |
| ResidencyStarts.GivesUpOnlyForLease | internal/lifecycle/lifecycle.go:204-207 | a start that gives up after running out of memory leaves its instance down; at most one other resident is left, which was leased when the scan met it, and none if Acquire made the start |
| ResidencyStarts.GivesUpBesideLease | internal/lifecycle/lifecycle.go:204-207 | every resident left is leased at that moment, if and only if none is left or the lease is out |
| ResidencyStarts.LeaseUntilGivenBack | internal/lifecycle/lifecycle.go:150-163 | the lease that the scan has met is out until a lease is given back, and from then on there is none |
| ResidencyStarts.FailsBesideLeasedOnly | internal/lifecycle/lifecycle.go:288-316 | in terms of the run: if and only if no lease is given back between the meeting and the end of the scan |
| ResidencyStarts.ZeroCostTurn | internal/lifecycle/lifecycle.go:365-371 | in every run a resident without memory cost is stopped in its turn exactly if it is idle, and the loop goes on |
| ResidencyStarts.FailureLeavesLeases | internal/lifecycle/lifecycle.go:172-223 | no section of a start changes `active` unless the start succeeds, and one that fails leaves its instance down |
| ResidencyStarts.ResidencyIsFrozen | internal/lifecycle/lifecycle.go:172-174 | no other thread changes residency while a start is under way |
| ResidencyStarts.RetriesAreBounded | internal/lifecycle/lifecycle.go:200-209 | the retries of a start are exactly the other residents it has lost since its first launch, so at most as many as there were |
| ResidencyWitness.GivesUpBesideIdle | internal/lifecycle/lifecycle.go:288-316 | a run in which a start gives up although the lease it met has been given back |
| ResidencyEviction.EvictsShortestPrefix | internal/lifecycle/lifecycle.go:364-390 | the eviction loop by itself stops the shortest prefix of the idle residents, in last-used order, that makes room, or all of them |
| ResidencyEviction.RefusesOnlyForLeases | internal/lifecycle/lifecycle.go:320-391 | by itself it refuses only if the leased residents and the request exceed the limit |
| ResidencyEviction.StopsUntilRoom | internal/lifecycle/lifecycle.go:364-390 | by itself the loop stops exactly those idle residents before which there is not yet room |
| ResidencyEviction.ZeroCostIsStopped | internal/lifecycle/lifecycle.go:365-371 | so too one without memory cost, and then, if the loop succeeds, also the next one |
| ResidencyEviction.ZeroCostWitness | cmd/audio/main.go:428-431 | an eviction of a model without memory cost |
| ResidencyManager.CandidatesAreLru | internal/lifecycle/lifecycle.go:332-364 | the sorted candidates are the other residents in last-used order |
| ResidencyManager.Manager.Snapshot | internal/lifecycle/lifecycle.go:332-346 | the first loop finds all other residents and the sum of their estimates |
| ResidencyManager.Manager.MakeRoomLocked | internal/lifecycle/lifecycle.go:320-391 | too large, already room, or exactly the eviction in last-used order |
| ResidencyManager.Manager.EvictLru | internal/lifecycle/lifecycle.go:364-390 | the second loop computes the eviction |
| ResidencyManager.Manager.EvictOldestIdleLocked | internal/lifecycle/lifecycle.go:288-316 | stops the least recently used idle resident, or reports that there is none |
| ResidencyManager.Manager.StopOthersLocked | internal/lifecycle/lifecycle.go:405-416 | stops exactly the other instances without a lease |
| ResidencyManager.Manager.TryStartLocked | internal/lifecycle/lifecycle.go:227-264 | a launch that does not become healthy leaves the instance down; every launch is logged with what became of it |
| ResidencyManager.Manager.LaunchLoop | internal/lifecycle/lifecycle.go:200-209 | by the log of launches the retry loop, uninterrupted, goes on only after one that ran out of memory, has stopped exactly one other instance for each retry, and ends with what the last one says; if that was out of memory, every other resident is leased |
| ResidencyManager.Manager.Start | internal/lifecycle/lifecycle.go:172-223 | its launches are logged, and the last one tells the result; on success the instance is up, with one lease more if asked for; on failure it is down with its leases unchanged; only idle others were stopped; the budget is kept |
| ResidencyManager.Manager.Release | internal/lifecycle/lifecycle.go:150-163 | gives back one lease and renews the time of last use |
| AnalysisLeases.Analyze | internal/analysisjob/manager.go:263-414 | on every path an analysis asks for the lease only when it holds none, and gives back each one once, in the order of the stages |
| AnalysisLeases.RunStage | internal/analysisjob/manager.go:334-361 | a stage that succeeds has given back its lease; one that fails leaves it to the deferred function |
| AnalysisLeases.TranscribeSegments | internal/analysisjob/manager.go:416-447 | the deferred release runs whatever happens |
| EditDistance.EditDistance | tools/benchmark_greek_stt.py:96-109 | the rolling row computes the recursive distance |
| EditDistance.NoCheaperScript | tools/benchmark_greek_stt.py:96-109 | no script of keeps, substitutions, deletions and insertions is cheaper than the distance of what it reads and writes |
| EditDistance.SomeScriptReaches | tools/benchmark_greek_stt.py:96-109 | some script costs exactly the distance |
| EditDistance.Symmetric | tools/benchmark_greek_stt.py:96-109 | the distance is symmetric |
| EditDistance.ZeroIffEqual | tools/benchmark_greek_stt.py:96-109 | it is zero exactly for equal sequences |
| EditDistance.Bounds | tools/benchmark_greek_stt.py:96-109 | it lies between the difference and the maximum of the lengths |
| EditDistance.Triangle | tools/benchmark_greek_stt.py:96-109 | it satisfies the triangle inequality |
| EditDistance.ErrorRateMeaning | tools/benchmark_greek_stt.py:112-113 | when the rate is zero, at most one, and above one |
| EditDistance.RateOfDistance | tools/benchmark_greek_stt.py:112-113 | the rate times the length of the reference, or times one if that is empty, is the distance |
| Words.FieldsOfSum | internal/segment/segment.go:131-133 | white space between two texts keeps their words apart |
| Words.FieldsKeepText | internal/segment/segment.go:131-133 | the words of a text are the text without its white space |
| Words.SpaceInNumbers | internal/segment/segment.go:131-133 | the code points that count as white space |
| Segment.Pack | internal/segment/segment.go:83-128 | the loop with its flush closure computes the packing, which the theorems below pin down for every target and cap |
| Segment.CutWords | internal/segment/segment.go:109-117 | the inner loop cuts an oversized sentence into runs of maxWords |
| SegmentTheorems.PackKeepsWords | internal/segment/segment.go:83-128 | the words of the chunks are the words of the sentences, in order |
| SegmentTheorems.PackRespectsCap | internal/segment/segment.go:77-82 | every chunk has between one and maxWords words |
| SegmentTheorems.PackCutsOnlyOversized | internal/segment/segment.go:77-82 | chunks consist of whole sentences, except for the words of sentences over maxWords |
| SegmentTheorems.CutIsTight | internal/segment/segment.go:109-117 | a sentence is cut as few times as the cap allows |
| SegmentTheorems.PackIsOptimal | internal/segment/segment.go:83-128 | without oversized sentences every group of several has at most targetWords words if 0 < targetWords <= maxWords, else maxWords, and no division into consecutive runs with that bound has fewer runs than Pack has chunks |
| SegmentTheorems.PackMeetsTarget | internal/segment/segment.go:77-128 | whatever the sentences are, a chunk above that bound is one sentence or a part of a sentence over the cap |
| AutoSegment.TerminateOnce | internal/segment/segment.go:142-167 | a terminated text ends a sentence, and terminating again changes nothing |
| AutoSegment.TerminateMeaning | internal/segment/segment.go:138-167 | a text ends a sentence exactly if its last character other than blanks, tabs and line ends is one of six marks; otherwise Terminate puts a period in their place |
| AutoSegment.TerminateWords | internal/segment/segment.go:162-167 | exactly when Terminate adds a word |
| AutoSegment.TerminateMayAddAWord | internal/segment/segment.go:162-167 | a text for which it does |
| AutoSegment.AutoSegment | internal/provider/omnivoice/omnivoice.go:234-274 | either nothing changes, or text and options become the terminated chunks, one a line; when that is so, with half the cap as target if none is given |
| AutoSegment.LineTooLong | internal/segment/segment.go:162-167 | a chunk exceeds the cap as a line exactly if it has maxWords words and ends, unterminated, with white space that Terminate leaves |
| AutoSegment.LinesWithinCap | internal/provider/omnivoice/omnivoice.go:234-274 | whatever the segmenter answers, every line is one terminated chunk within the cap if and only if each chunk stays one line and none is too long in that way |
| AutoSegment.TidyPiecesFit | internal/provider/omnivoice/omnivoice.go:234-274 | so it is for sentences without line feeds and such white space |
| AutoSegment.SpaceBreaksCap | internal/provider/omnivoice/omnivoice.go:234-274 | a request with a line above the cap |
| AutoSegment.LineFeedBreaksLine | internal/provider/omnivoice/omnivoice.go:234-274 | a request with a line that has no terminator |
| AutoSegment.FallbackLines | internal/provider/omnivoice/omnivoice.go:248-256 | without the segmenter this holds for every long input, whose words the chunks keep |
| Sse.ReadEvents | internal/provider/omnivoice/sse.go:16-72 | however the stream is cut into reads, the events and the result are those of its lines; what is left has no line end |
| Sse.LineWithoutData | internal/provider/omnivoice/sse.go:37-43 | a line that does not begin with the six bytes of the data field has no event; the six bytes of the end mark have one event and end the stream |
| Sse.LineWithData | internal/provider/omnivoice/sse.go:45-63 | a line that decodes to a delta has one event with its audio, or its data if the audio is empty, and the stream goes on unless it is refused; the end of the audio has one event without audio and ends the stream; anything else has none |
| Sse.LinesInBytes | internal/provider/omnivoice/sse.go:25-35 | a line ends at the bytes 13 and 10, at a 10, or at a 13 that no 10 follows |
| Sse.FeedSum | internal/provider/omnivoice/sse.go:24-63 | lines are handled one after the other until the stream has ended |
| Sse.DrainBuffer | internal/provider/omnivoice/sse.go:24-63 | the inner loop handles exactly the finished lines of the buffer |
| Sse.IndexLineEnd | internal/provider/omnivoice/sse.go:74-81 | finds the first line end |
| Sse.SameEvents | internal/provider/omnivoice/sse.go:25-35 | taking CR and LF of one line end separately changes no event |
| Sse.PiecesGrow | internal/provider/omnivoice/sse.go:20-23 | what a further read adds depends only on what was left over |
| Sse.AnyLineEnds | internal/provider/omnivoice/sse.go:74-81 | a sender may end each line with CR LF, LF or CR without changing the events |
| Wav.Parse | internal/pcmwav/pcmwav.go:16-56 | the walk over the chunks computes the specified result, every error included |
| Wav.ParseChunks | internal/pcmwav/pcmwav.go:16-56 | of a file with any chunks the last format and the last data chunk count, and only a short format chunk stops the walk; in bytes: format 1, one channel, 16 bits, a rate that is not zero, and whole samples, or the file is refused |
| Wav.ChunkInBytes | internal/pcmwav/pcmwav.go:23-45 | how a chunk lies in a file |
| Wav.SampleInBytes | internal/pcmwav/pcmwav.go:51-55 | a sample is two bytes, the lower one first, in two's complement |
| Wav.DecodeBytes | internal/pcmwav/pcmwav.go:51-55 | samples written as bytes are read back |
| WavWriters.Encode | internal/pcmwav/pcmwav.go:58-84 | the sequential writer produces header and samples, or its errors |
| WavWriters.NormalizerWav | internal/encode/normalize.go:76-105 | the in-place writer of the normaliser produces the same layout |
| WavWriters.ServerWav | internal/server/server.go:746-766 | so does the server's |
| WavWriters.HeaderInBytes | internal/pcmwav/pcmwav.go:66-79 | every field of the 44 bytes in numbers, byte rate and block alignment among them |
| WavWriters.WriterErrors | internal/pcmwav/pcmwav.go:58-84 | what each of the three writers refuses; otherwise the samples follow the header |
| WavWriters.WritersAgree | internal/pcmwav/pcmwav.go:58-84 | the three writers give identical files for mono samples exactly within the size limit |
| WavWriters.RoundTrip | internal/pcmwav/pcmwav.go:16-84 | Parse after Encode returns the samples and the rate modulo 2^32, so it is exact if and only if the rate fits |
| WavWriters.MatchesWav | internal/encode/normalize.go:107-140 | the walk computes the specified check |
| WavWriters.FileMatches | internal/encode/normalize.go:107-140 | which written files pass for which target |
| WavWriters.MatchChunks | internal/encode/normalize.go:107-140 | which files pass, for any chunks in any order and in bytes |
| WavWriters.PassedFilesParse | internal/encode/normalize.go:107-140 | a file that passes for a mono target is read by Parse at that rate exactly if its last data chunk holds whole samples; otherwise Parse finds none |
| WavWriters.ChunkFileMatches | internal/encode/normalize.go:107-140 | which files of one format and one data chunk of any length pass |
| WavWriters.OddFile | internal/encode/normalize.go:107-140 | every such file of odd length passes and cannot be parsed |
| WavWriters.NormalizeAudio | internal/encode/normalize.go:38-74 | pass-through, the errors, or the conversion |
| WavWriters.NormalizeTwice | internal/encode/normalize.go:38-74 | normalising again changes nothing and needs no ffmpeg, exactly if the target fits the file's fields |
| Corpus.RecordedLines | internal/sttcorpus/sttcorpus.go:202-211 | exactly which lines are recorded |
| Corpus.EarlyLine | internal/sttcorpus/sttcorpus.go:302-308 | a line that begins before the audio and is recorded |
| Corpus.WindowTimes | internal/sttcorpus/sttcorpus.go:302-308 | a clip reaches from the line's start, or the beginning of the audio, to its end, both rounded down to samples, and is within one sample of its duration, or two if it starts early |
| Corpus.SessionInNumbers | internal/sttcorpus/sttcorpus.go:186-199 | the row of the session: its text, offset zero, and a duration that times the rate is the number of samples |
| Corpus.RowsInOrder | internal/sttcorpus/sttcorpus.go:201-238 | one row for every recorded line and no other, in their order, with its text, and duration and offset that times 1000 are the milliseconds of the line |
| Corpus.ClipDecodes | internal/sttcorpus/sttcorpus.go:215-221 | every clip can be written if the session fits into a file, and decodes to exactly the session samples of its window |
| Corpus.MeetingLines | internal/sttcorpus/sttcorpus.go:206-211 | lines that meet give clips without gap or overlap |
| Corpus.EncodePcm | internal/sttcorpus/sttcorpus.go:289-299 | the loop decodes the samples that are then written |
| Corpus.Session.Append | internal/sttcorpus/sttcorpus.go:150-155 | appends the frame |
| Corpus.Session.RecordLine | internal/sttcorpus/sttcorpus.go:202-236 | one turn of the loop writes one clip and row, or none |
| Corpus.Session.Finish | internal/sttcorpus/sttcorpus.go:169-243 | the call is logged with all its audio; on success the manifest gains the session and exactly the recorded lines and the store their files; on failure the manifest is unchanged and the store has at most the session and the clips of a prefix of the lines |
| Corpus.ClipsInStore | internal/sttcorpus/sttcorpus.go:202-236 | after Finish every recorded line has its own clip |
| LiveCapture.CorpusLines | internal/server/server.go:1619-1628 | keeps the complete lines that are not blank |
| LiveCapture.KeptLines | internal/server/server.go:1619-1628 | these are unchanged and in their order, and complete with a character that is not white space |
| LiveCapture.LoopGoesOn | internal/server/server.go:605-715 | exactly which messages end the loop, which commit, and which audio is taken |
| LiveCapture.LastTold | internal/server/server.go:637-639 | the text and lines of a session that breaks off are those of the last audio message taken that brought text |
| LiveCapture.NothingTold | internal/server/server.go:594-603 | and empty without one |
| LiveCapture.RecordedOnce | internal/server/server.go:589-672 | Finish is owed once, exactly if capture is on and the audio stays within the limit, with text and lines of the commit, or else of the last message that brought text |
| LiveCapture.AllOrNothing | internal/server/server.go:618-636 | the captured buffer is all audio taken so far, or dropped exactly because that exceeds the limit; with post-processing it is never dropped |
| LiveCapture.DroppedForGood | internal/server/server.go:627-636 | a dropped capture does not come back |
| LiveCapture.LiveTranscription | internal/server/server.go:589-715 | the calls of Finish that the recorder logs are at most one, with all audio taken, the final text after a commit and the last text otherwise; manifest and files are what that call leaves, or unchanged; the post-processing model gets the same audio |
| MergeTurns.UniqueInPlace | internal/analysisjob/manager.go:513-521 | compacts the slice in place |
| MergeTurns.SortedSet | internal/analysisjob/manager.go:476-482 | sorting and compacting gives the strictly increasing sequence of the same elements |
| MergeTurns.SameSpeakers | internal/analysisjob/manager.go:523-533 | compares two lists |
| MergeTurns.MergeTurns | internal/analysisjob/manager.go:466-511 | the loops compute the sweep |
| MergeTurnsTheorems.SpeakersAt | internal/analysisjob/manager.go:484-492 | the speakers of an interval are those who speak at each of its samples, exactly if every turn without length inside it belongs to one of them |
| MergeTurnsTheorems.OneInterval | internal/analysisjob/manager.go:476-485 | a sample lies in at most one interval |
| MergeTurnsTheorems.SweepMeaning | internal/analysisjob/manager.go:466-511 | every covered sample lies in an interval that goes into one segment, whose speakers are strictly sorted and exactly those covering the sample |
| MergeTurnsTheorems.SilenceIsDropped | internal/analysisjob/manager.go:493-495 | an uncovered sample lies in no interval that goes into a segment |
| MergeTurnsTheorems.SegmentsChain | internal/analysisjob/manager.go:502-508 | segments are ordered and disjoint in milliseconds, and neighbours that touch have different speakers |
| MergeTurnsTheorems.SegmentSpan | internal/analysisjob/manager.go:498-508 | every merged segment begins and ends where, to the millisecond, somebody begins or stops to speak |
| MergeTurnsSilence.MsInNumbers | internal/analysisjob/manager.go:498-500 | a sample in milliseconds, truncated toward zero |
| MergeTurnsSilence.NoSegmentInSilence | internal/analysisjob/manager.go:493-508 | no merged segment reaches into a stretch in which nobody speaks, to the millisecond, so equal speakers are never joined across silence |
| MergeTurnsSilence.SegmentAtSample | internal/analysisjob/manager.go:466-511 | around the millisecond of every sample at which somebody speaks there is a segment with exactly the speakers of that sample |
| MergeTurnsTheorems.OverlapMeansSeveral | internal/analysisjob/manager.go:498-501 | a merged segment has speakers, and is marked as an overlap exactly if it has several |
| MergeTurnsTheorems.EmptyTurnCounts | internal/analysisjob/manager.go:487-492 | a turn without length makes an overlapping segment of two speakers although no sample has two |
| SpeakerSamples.CollectSpeakerSamples | internal/analysisjob/manager.go:449-464 | every speaker gets the first `limit` samples of what the speaker says, turn after turn |
| Moonshine.Engine.LoadLocked | stt/moonshine/server.py:161-190 | loads a model, releasing one of another language first |
| Moonshine.Engine.Begin | stt/moonshine/server.py:237-248 | takes the begin step |
| Moonshine.Engine.Feed | stt/moonshine/server.py:250-277 | takes the feed step and answers with its report |
| Moonshine.Engine.Finalize | stt/moonshine/server.py:279-289 | takes the finalize step and answers with the final report |
| Moonshine.Engine.Reset | stt/moonshine/server.py:335-338 | takes the reset step |
| Moonshine.Engine.Unload | stt/moonshine/server.py:192-207 | takes the unload step, of a request or of a timer |
| Moonshine.Engine.Transcribe | stt/moonshine/server.py:224-233 | a buffered request loads and rearms the idle timer |
| Moonshine.Engine.ResetIdleTimerLocked | stt/moonshine/server.py:214-220 | arms the timer only without an open session |
| MoonshineTheorems.OpenMeansLoaded | stt/moonshine/server.py:237-248 | an open session has a loaded model and no armed timer |
| MoonshineTheorems.ThrottleLaw | stt/moonshine/server.py:258-265 | k refreshes, from the first successful one on, span at least k - 1 update intervals, failed ones included |
| MoonshineTheorems.FeedReports | stt/moonshine/server.py:250-333 | feed refreshes exactly if there is no report yet or the last refresh is at least one update interval ago, and then reports the new text, else the last; `input_ms`, `buffered_ms` and `revision` in numbers |
| MoonshineTheorems.IdleModelIsUnloaded | stt/moonshine/server.py:209-233 | a buffered request, a reset or a finalize that leaves no session open starts the idle timer, if there is one; when it runs out and gets the lock, the model is gone |
| MoonshineTheorems.RevisionLaw | stt/moonshine/server.py:291-333 | `revision` counts the changed reports, a client that applies only those holds the latest text, and `input_ms` never decreases |
| MoonshineTheorems.FinalLaw | stt/moonshine/server.py:279-333 | the final report continues these laws, with its milliseconds in numbers |
| MoonshineTheorems.NoNewTimers | stt/moonshine/server.py:214-220 | no timer runs out while a session is open |
| MoonshineTheorems.TimersSpareSession | stt/moonshine/server.py:192-220 | a timer closes an open session exactly if it had run out before |
| MoonshineTheorems.LateTimerClosesSession | stt/moonshine/server.py:192-220 | a run in which one does |
| MoonshineTheorems.SessionEnds | stt/moonshine/server.py:161-233 | exactly which steps end an open session, requests in another language among them |
| MoonshineTheorems.FailedBegin | stt/moonshine/server.py:237-248 | exactly when a begin leaves a loaded model without a session; it has no timer then |
| MoonshineTheorems.ModelStays | stt/moonshine/server.py:209-220 | such a model stays loaded until a request comes |

## Left out

- Processes, sockets, ffmpeg, temporary files and measured memory use: their outcomes are
  parameters or nondeterministic. With measured memory no budget follows from the code.
- Wall-clock waiting. Loops that sleep or wait for a signal are steps that may be repeated; clocks are
  monotone and, in the queue, never zero.
- Identifiers of providers, groups, workers, jobs, instances and speakers are tokens that are only
  compared; speakers are numbered in string order. New job ids are fresh.
- Requests, results, creation and start times of jobs, alignment results and the chunks themselves.
- In the queue machine only jobs made outside the queue are ended by callers, each once; a second end
  panics (`QueueManager.Manager.EndDirectJob`) and no run goes on after it.
- Jobs and resource states are values in maps, not shared objects: a caller that keeps a pointer to
  a job is not modelled.
- The shared execution gate of queue workers counts as part of running a job in the queue machine.
- ResidencyEviction.EvictsShortestPrefix: one eviction loop without a step of another thread in between; `ResidencyStarts.EvictsPrefix` is about the loop with such steps.
- ResidencyEviction.RefusesOnlyForLeases: likewise; see `ResidencyStarts.RefusalMeansLease`.
- ResidencyManager.Manager.MakeRoomLocked: the loops of the method run without steps of other threads between their turns, which `ResidencyMachine` has.
- ResidencyManager.Manager.EvictLru: likewise.
- ResidencyManager.Manager.EvictOldestIdleLocked: likewise; the scan with such steps is in `ResidencyStarts.GivesUpOnlyForLease` and `ResidencyStarts.VictimIsStopped`.
- ResidencyManager.Manager.StopOthersLocked: likewise; `ResidencyTheorems.LeasedIsNeverStopped` covers its turns as steps.
- ResidencyManager.Manager.LaunchLoop: likewise; see `ResidencyStarts.RetriesAreBounded`.
- ResidencyManager.Manager.Start: likewise; see `ResidencyStarts.FailureLeavesLeases` and `ResidencyBudget.WithinBudget`.
- Instances are registered before any start and never replaced, and StopAll closes no channel twice.
- Fixed-width overflow, except in WAV headers and where stated; times, sizes and sample positions are
  unbounded integers, and seconds are exact rationals.
- Confidences, embeddings and texts of analysis segments.
- Texts are sequences of code points; ill-formed UTF-8 is not modelled. JSON decoding and trimming
  in the event reader are uninterpreted functions.
- In the Moonshine engine the lines, the committed and the tentative text of a report.
- HTTP handlers, authentication, the other sidecar clients, the stores, the web interface,
  configuration, and the status wrappers for transcription and separation jobs, which would only add
  easy members beside the queue.
