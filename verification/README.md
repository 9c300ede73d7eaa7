# The hotreload engine, modelled and proved in Dafny

hotreload watches a source tree, rebuilds on every save and swaps in the new server. Two promises run through
its code and its ARCHITECTURE.md: *the newest save always wins*, and *a bad save never costs you your server*.
Neither is visible in any one function. They come from five kinds of goroutine, four channels and a mutex or
two. This project states both as theorems over every interleaving, together with the guarantees of the smaller
parts the engine relies on.

`dafny verify dfyconfig.toml` checks the whole project.

## The engine as a transition system

`ReloadModel.dfy` has one action per goroutine step between two synchronisation points: the watcher, the fan-in
goroutine, the debouncer, the main select loop, one goroutine per build, and per server process a reaper and a
context goroutine. The scheduler may pick any enabled action, so a random select is an arbitrary choice. The
channels have the source's capacities, and the dropping sends drop. The ghost side is a version number for the source
tree: a save raises it, a build records the version it read, a server the version it was started from.

| file | about |
|---|---|
| `ReloadModel` | state, actions, runs |
| `ReloadControl`, `ReloadFreshness` | serial builds and handles; the trigger pipeline |
| `ReloadServer`, `ReloadSingle` | the supervisor's lock sections; who may do what to the server |
| `ReloadTenure` | what holds of the server whether or not kills are confirmed |
| `ReloadVersions`, `ReloadAccounting`, `ReloadStarts` | versions served; what every Stop and every Start answers |
| `ReloadShutdown` | the measure that falls, and the absence of deadlock |
| `ReloadTheorems` | the guarantees over all runs |
| `ReloadOutcomes` | what becomes of a build follows from its steps; *a bad save never costs you your server* |
| `ReloadLimits`, `ReloadLate` | where they end: if-and-only-if statements with concrete runs |
| `ReloadNotices`, `ReloadStops` | which crash notices are answered; which Stops are still to come, and for whom |
| `ReloadSettling` | the engine comes to rest while the root context lives, and only settled |

Two hypotheses matter and are explicit, one for each caller of `killGroup`: `serverKilled` says that `Stop` is always
told that the server was reaped, `commandKilled` that a cancelled build command always is. They are independent.
`Stop` can give up on an unkillable server, and `buildAndRestart` starts the next one regardless; a build that cannot
kill its command ignores that and returns. `ReloadLimits` shows what each is worth. One live server, exit attribution
and genuine notices hold over all runs if and only if server kills are confirmed. Ascending versions, the newest save
winning and nothing left building hold if and only if build commands are reaped or there is nothing to compile. The
breaking runs are exhibited. Serial builds, freshness at commit, stranded cancellations, the accounts of Stops and
Starts, bounded shutdown, "reaped or claimed" at return, settling, *a bad save never costs you your server*, and that
an unclaimed exit is always published need neither. `ExitAttribution`, `NoticesAreGenuine` and `ReturnsReaped` assume
confirmed server kills; `StartsArePaidFor` and `UnclaimedExitsArePublished` do so in the clause that says so, and
`AtReturn` and `Convergence` assume reaped build commands in theirs.

Five points where the code and the text around it differ; the model follows the code.

- ARCHITECTURE.md:103 says that a cancelled build never starts a server. The check after the build command is the
  last place where cancellation counts. `ReloadLate.LateCancellation` gives the exact condition.
- ARCHITECTURE.md:104 says that it never stops one either. The same check is the limit; see `ReloadStops.LateStop`.
- manager.go:341 speaks of dropping the older notice. The non-blocking send on a full channel drops the newer one.
- manager.go:385 says that the handle is put back so that a later Stop retries. In `buildAndRestart` a Start that
  succeeds then overwrites it. `ReloadStops.NoRetry` says from when on nobody retries, `RetriedAtShutdown` shows the
  exception.
- manager.go:355 says that Stop blocks until the process is reaped. A Stop that finds the handle taken by another
  Stop returns at once, so at shutdown the guarantee is "reaped, or claimed by a Stop" (`AtReturn`). `ReturnsReaped`
  says exactly which returns leave something unreaped.

Not every crash is answered. `ReloadNotices.CrashIsAnswered` says exactly which notices are, over every interleaving:
one taken while a build is watched is dropped, even if that build then fails, and `ReloadLate.CrashDuringFailingBuild`
is a run that comes to rest with no server.

Timers follow Go 1.25, the version go.mod selects: after `Stop` or `Reset` no stale value is delivered, so a timer is
inactive or armed with a deadline.

## The parts as the objects they are

| file | about |
|---|---|
| `ServerProcess` | `process.Server` as a class; each lock section equals the transition system's step |
| `CrashDetector`, `RestartRate` | the sliding window compacted in place, and the restart rate it enforces |
| `Controller` | `buildAndRestart` and `handleUnexpectedExit` over the real detector and server objects |
| `Debounce` | the timed select loop against a rule that mentions no timer, and its attempts against the gaps between inputs |
| `Logstream` | the line-prefixing writer: conservation, independence of chunking, shared sinks |
| `Filter`, `SourceTree` | the ignore rules; pruned walks against the filtered full walk |
| `Poller` | snapshot diffs and their replay |
| `Watcher`, `WatchRace` | the watched set, and arming directories while they are being filled |

Clock readings, the outcome of a command, whether a send is taken, whether a watch is refused and what the file
system shows are parameters of the methods, so every statement holds for all of them.

## Model

| member | source | states |
|---|---|---|
| ReloadTheorems.Convergence | internal/controller/controller.go:234-354 | In every reachable state with the root context alive and nothing in flight, all events have been handled and the last build was launched on the newest tree and never cancelled; with cancelled build commands reaped or nothing to compile, whatever becomes of servers, it failed by itself, or could not start its server, or the newest server runs the newest tree. |
| ReloadLimits.NewestSaveWins | internal/controller/controller.go:234-354 | That last clause holds in every settled reachable state if and only if cancelled build commands are reaped or there is nothing to compile. |
| ReloadSettling.NewestSaveIsServed | internal/controller/controller.go:234-354 | The newest save wins, as a matter of time: from any reachable state with the root context alive, every schedule without further saves, reports, shutdown or a server dying unclaimed takes at most the computed number of steps, and when it cannot be extended, a server that outlives its kill need not have died for that, and every save has been reported, the engine has settled, the newest tree has been handled, and under that condition it is in service unless its build or its server failed by itself. |
| ReloadSettling.QuietStepCosts | internal/controller/controller.go:258-292 | Every such step of every thread strictly lowers the measure. |
| ReloadSettling.UnsettledMoves | internal/controller/controller.go:258-292 | While the engine has not settled and every save has been reported, some such step is enabled that is not a death to be hoped for: a server's exit is counted only where kills are confirmed and a Stop has claimed it. No deadlock while the root context lives. |
| ReloadSettling.RestLeavesNoGoroutine | internal/process/manager.go:289-301 | When the engine is at rest with the root context alive, the reaper and the context goroutine of every dead server have ended. |
| ReloadTheorems.NoStrandedCancellation | internal/controller/controller.go:212-292 | While the root context is alive, a cancelled last build always has a newer trigger somewhere in the pipeline, despite the dropping sends on the capacity-1 channel. |
| ReloadTheorems.FreshnessAtCommit | internal/controller/controller.go:277-336 | A build that passes the post-compile check read a tree no older than every event whose cancelBuild call had returned before, also for events that land between stopInFlight and the publication of the new cancel function. |
| ReloadTheorems.ChannelsAreBounded | internal/controller/controller.go:55-57 | The watcher's channel and the fan-in's never hold more than 256 events; a sender waits. |
| ReloadTheorems.SerialBuilds | internal/controller/controller.go:256-292 | At most one build goroutine is active; it is the one named by buildWatch and inFlightDone; the crash handler's Record, Backoff and Start never overlap one. |
| ReloadOutcomes.BadSavesKeepTheServer | internal/controller/controller.go:303-336 | Whatever becomes of kills: over any stretch of a run in which every build fails, is cancelled by its check, was over before or has not passed its check yet, without shutdown or an exit of the server itself, a running server (one that outlived an earlier Stop included), the set of generations, the counts of commits and Stops and the crash history stay put, however many saves arrive. |
| ReloadOutcomes.FailureIsFinal | internal/controller/controller.go:303-323 | From the moment a configured hook or build command fails, is cancelled before it starts or is abandoned, over every run: that build has failed, and no later step of it changes the commits, the Stops, the crash history or the server. |
| ReloadOutcomes.OutcomeIsEarned | internal/controller/controller.go:300-347 | Over every run, at any moment: a build has failed, was superseded, found no server started or serves with generation g if and only if a command of it failed, the check found it cancelled, Start refused, or generation g came up, at some earlier step. A build that is over has an outcome. |
| ReloadOutcomes.OnlySuccessGetsOn | internal/controller/controller.go:303-343 | Over every run a configured hook has succeeded before the build command is reached and before the check lets the build pass, a configured build command has succeeded before the check does, and a server comes up only after that. |
| ReloadTheorems.NoCommitKeepsTheServer | internal/controller/controller.go:324-343 | The same over any stretch in which no build passes the check. |
| ReloadTheorems.CommitStep | internal/controller/controller.go:324-336 | The only step that raises the commit count is the check of the last build finding its context alive, and it raises it by one. |
| ReloadTheorems.StopsAreCommits | internal/controller/controller.go:260-264 | In every reachable state the Stops issued equal the commits, less one commit still on its way to Stop, plus one for shutdown, which needs the root context to have ended. |
| ReloadTheorems.StartsArePaidFor | internal/controller/controller.go:338-399 | Every server ever started is paid for by a commit or by a process that crashed with its exit recorded as unintentional; with server kills confirmed no Stop had claimed that process, so stopped servers start nothing. |
| ReloadTheorems.ExitAttribution | internal/process/manager.go:306-321 | With server kills confirmed, a reaper records an exit as intentional exactly when some Stop had claimed its own process. |
| ReloadTheorems.NoticesAreGenuine | internal/process/manager.go:335-349 | With server kills confirmed, whatever waits on Exits concerns a process no Stop had claimed when its exit was recorded, and carries that process's result. |
| ReloadTheorems.UnclaimedExitsArePublished | internal/process/manager.go:335-342 | A finished reaper has added a notice exactly if the exit was recorded as unintentional and Exits was empty, and a pending notice is kept. Whatever becomes of kills an unclaimed exit is never recorded as intentional, so it never leaves Exits empty; with server kills confirmed a claimed exit adds nothing. |
| ReloadTheorems.ShutdownIsBounded | internal/controller/controller.go:260-264 | After the root context ends and the watcher closes its channel, the engine steps of any schedule number at most the measure of the state it starts from. |
| ReloadTheorems.ShutdownReturns | internal/controller/controller.go:258-264 | A schedule that cannot be extended by such a step has made Run return, whatever becomes of kills and however many servers live on. |
| ReloadTheorems.AtReturn | internal/process/manager.go:289-372 | When Run has returned no build goroutine is left and no step of any kind starts a server, and every server not yet reaped has been claimed by a Stop, whatever becomes of kills; with cancelled build commands reaped or nothing to compile no build command is left either. |
| ReloadTheorems.ReachableInv | internal/controller/controller.go:204-292 | All invariants hold together in every reachable state: control, pipeline, tenure, Stop and Start accounts, registration; with server kills confirmed also supervision; with cancelled build commands reaped or nothing to compile also versions. |
| ReloadShutdown.StepFalls | internal/controller/controller.go:258-292 | While closing, every step of every thread strictly lowers the measure; only a save leaves it alone. |
| ReloadShutdown.Progress | internal/controller/controller.go:220-264 | While closing and until Run returns, some engine step is enabled that is not a death to be hoped for: a server's exit is counted only where kills are confirmed and a Stop has claimed it. No deadlock. |
| ReloadControl.ControlStep | internal/controller/controller.go:204-292 | Every step keeps the control invariant: earlier builds are over, the three handles name the last build, a waited-for build is cancelled, threads that have gone home did so because the root context ended. |
| ReloadControl.BuildMovesLast | internal/controller/controller.go:300-354 | Whatever build goroutine moves is the last and only active one, and changes only its own record. |
| ReloadFreshness.PipelineStep | internal/controller/controller.go:234-291 | Every step keeps delivery of versions through the watcher channel and the fan-in, the trigger behind each cancelled build, and the freshness of an uncancelled build. |
| ReloadServer.ReaperReadsOwnFlag | internal/process/manager.go:278-321 | A reaper about to record an exit belongs to the registered generation, and the stopping flag it reads says whether that process was claimed. |
| ReloadServer.ReapKeeps | internal/process/manager.go:306-343 | Each of the reaper's three steps keeps one unreaped process at most, truthful handles and flags, and genuine notices. |
| ReloadSingle.SupervisedStep | internal/process/manager.go:257-395 | With server kills confirmed every step keeps the link between the supervisor and the program counters: who may spawn, register and stop, and when everything is known to be reaped. |
| ReloadSingle.NothingToStop | internal/process/manager.go:358-372 | Before the root context ends, a build that reaches Stop and finds no handle finds every earlier process reaped. |
| ReloadVersions.VersionsStep | internal/controller/controller.go:300-347 | With cancelled build commands reaped or nothing to compile, every step keeps the binary no newer than the tree, equal to what a committed build read, and successive servers on non-decreasing versions. |
| ReloadTenure.TenureStep | internal/process/manager.go:257-395 | Whatever becomes of kills, every step keeps this: the registered generation, while unclaimed, owns the handle and a clear stopping flag; every other registered process has been claimed or reaped; a build spawns only after the current process was claimed, and the crash handler only after it was found down. |
| ReloadTenure.UnclaimedIsCurrent | internal/process/manager.go:278-321 | A reaper that finds its process unclaimed belongs to the current generation and reads a clear stopping flag. |
| ReloadAccounting.ServingStep | internal/controller/controller.go:300-336 | One step leaves a running server, the generations, the Stop count and the crash history alone unless it is that server's exit, the end of the root context or a commit; no hypothesis about kills. |
| ReloadStarts.PaidStep | internal/controller/controller.go:338-399 | Every step keeps generations plus what builds, the crash handler and a pending notice still owe within commits plus crashes. |
| ReloadLimits.SingleLiveServer | internal/process/manager.go:257-395 | At most one server process is unreaped in every reachable state if and only if server kills are confirmed, whatever becomes of build commands. |
| ReloadLimits.AttributionIsExact | internal/process/manager.go:278-321 | Every reaper in every reachable state is about to record the truth about its own process if and only if server kills are confirmed, whatever becomes of build commands. |
| ReloadLimits.NoticesAreExact | internal/process/manager.go:335-349 | In every reachable state whatever waits on Exits concerns an exit no Stop had claimed, if and only if server kills are confirmed, whatever becomes of build commands. |
| ReloadLimits.ServedVersionAscends | internal/controller/controller.go:338-399 | Successively started servers, crash restarts included, never serve older source if and only if cancelled build commands are reaped or there is nothing to compile, whatever becomes of servers. |
| ReloadLimits.NothingLeftBuilding | internal/process/manager.go:166-175 | No cancelled build command is ever left running, in every reachable state and in every one in which Run has returned, if and only if cancelled build commands are reaped or there is nothing to compile. |
| ReloadLimits.UnkillableServer | internal/process/manager.go:384-394 | A run in which Stop gives up on a server and the next commit leaves two processes alive. |
| ReloadStops.RetriedUntilSucceeded | internal/process/manager.go:384-392 | In every reachable state with the root context alive, an unreaped server's handle is held, by the server object or by a Stop that has taken it, if and only if no newer generation is registered. |
| ReloadStops.NoRetry | internal/process/manager.go:384-392 | So over every run, from the registration of a newer generation on and for as long as the root context lives, nobody holds the handle of an older process. |
| ReloadStops.HandleIsCurrent | internal/process/manager.go:359-382 | In every reachable state the handle Stop would take is that of the process whose done channel it would wait for, if and only if server kills are confirmed. |
| ReloadStops.GivingUpPutsBack | internal/process/manager.go:384-392 | Whichever of the three callers it is, a Stop that ends while the channel it waits for is open leaves the server with a handle, that of the process it signalled unless there is one already; and no Stop that ends takes or replaces one. |
| ReloadStops.HandleGivenUp | internal/process/manager.go:278-392 | A step gives a handle up in two ways only: a Stop takes it, marking its process as claimed and its exit as intended, or the newest process, not registered before, is registered. |
| ReloadStops.RetriedAtShutdown | internal/process/manager.go:384-392 | Only at shutdown can an older handle come back: a run in which the final Stop has taken and signalled the first server while it waits for the channel of the second, the registered one. |
| ReloadLimits.VersionGoesBack | internal/process/manager.go:166-175 | A run in which a compile command outlives its kill, overwrites the newer binary, and a crash restart serves the older source, on which the engine then settles. |
| ReloadLimits.CrashRestarts | internal/controller/controller.go:378-399 | From any reachable idle state with a crash notice and no running server, a schedule records the crash and starts the next generation. |
| ReloadLate.LateCancellation | internal/controller/controller.go:324-347 | A cancelled build that has started no server can still start one, in some continuation of the run, if and only if it had passed the post-compile check and, when the root context has ended, Start's own check of it as well. |
| ReloadLate.LateCancellationHappens | ARCHITECTURE.md:103-104 | A reachable state in which a cancelled build is about to call Stop and can go on to Start, so the unqualified sentences are false of the code. |
| ReloadStops.LateStop | ARCHITECTURE.md:104 | A cancelled build can still issue a Stop, in some continuation of the run, if and only if it stands between the post-compile check and its call of Stop. |
| ReloadLate.CommittedGoesOn | internal/controller/controller.go:338-349 | From every reachable state with a build anywhere past those checks, some schedule makes that build start its server. |
| ReloadNotices.CrashIsAnswered | internal/controller/controller.go:270-271 | Every complete handling of a notice, however the other goroutines move, records the crash if and only if the notice is a failure, no build is being watched when it is taken, and the check finds no server running. If no server runs when it is taken, or the current one is not reaped meanwhile, the last condition is read off the state the notice is taken in. With no build watched the history grows by exactly that one crash or not at all. |
| ReloadNotices.RecordedIsRestarted | internal/controller/controller.go:382-399 | Every complete handling, however the other goroutines move: a recorded crash ends with a new server in service, unless the root context has ended or Start has failed, and an unrecorded one never does. |
| ReloadNotices.BacksOffExactly | internal/controller/controller.go:382-394 | Over every run the main loop can go to sleep if and only if three crashes have been recorded since a build last reset the detector. |
| ReloadNotices.StaleNoticeAnswered | internal/controller/controller.go:378-383 | A run showing that the proviso is needed: a stale notice taken while a newer server runs is recorded as a crash because that server dies before the check. |
| ReloadLate.CrashDuringFailingBuild | internal/controller/controller.go:373-377 | A run that settles with the only server crashed, no notice pending and nothing restarted, because the notice was taken while a build was watched. |
| ReloadLate.ReturnsReaped | internal/process/manager.go:358-395 | With server kills confirmed, a step with which Run returns leaves a process unreaped if and only if it is the final Stop finding no handle while a process is unreaped; a final Stop that waits always leaves everything reaped. |
| ReloadLate.ReturnBeforeReap | internal/process/manager.go:358-372 | Such a return happens: a run in which Run returns while the server, claimed by the context goroutine's Stop, is still alive. |
| ServerProcess.Server.constructor | internal/process/manager.go:230-249 | A new server has a closed done channel, no handle and an empty Exits, which is the initial supervisor state. |
| ServerProcess.Server.Register | internal/process/manager.go:278-285 | Start's lock section is the transition system's registration step and keeps a pending notice. |
| ServerProcess.Server.TakeHandle | internal/process/manager.go:359-368 | Stop's first lock section is the transition system's claim and captures the handle it took together with the done channel of the registered generation. |
| ServerProcess.Server.PutHandleBack | internal/process/manager.go:388-392 | Stop's second lock section puts the handle back unless a newer server owns the field. |
| ServerProcess.Server.RecordExit | internal/process/manager.go:312-321 | The reaper's lock section is the first reap step; the exit is intentional exactly if the stopping flag was set. |
| ServerProcess.Server.CloseDone | internal/process/manager.go:323-323 | Closing a generation's own channel is the second reap step, also when a newer generation is registered. |
| ServerProcess.Server.Publish | internal/process/manager.go:335-342 | The non-blocking send is the third reap step: Exits changes only for an unintentional exit that finds it empty. |
| ServerProcess.Server.IsRunning | internal/process/manager.go:405-414 | True exactly while the registered generation has not been reaped. |
| ServerProcess.Server.LastExit | internal/process/manager.go:418-422 | There is a last exit exactly if one has been recorded since the last Start, and it says of its process what that process's own reaper recorded: result and attribution. |
| ServerProcess.Server.UptimeAtExit | internal/process/manager.go:426-433 | There is an uptime exactly if an exit has been recorded since the last Start, and if that was the registered generation's own exit it is the uptime in the exit record. |
| ServerProcess.Server.Start | internal/process/manager.go:257-302 | Fails without any change on an empty command, an ended context or a failed spawn; otherwise installs the next generation with a fresh open channel. |
| ServerProcess.Server.Reap | internal/process/manager.go:306-343 | Run alone, the reaper records uptime, result and attribution, closes done and publishes exactly an unintentional exit into an empty Exits. |
| ServerProcess.Server.Stop | internal/process/manager.go:358-395 | Run alone, whichever process its handle names: no handle, no change; if the captured channel closes in time the registered generation has an intentional exit that is not published; a kill given up leaves handle and server as they were. |
| Controller.Controller.RateBound | internal/controller/controller.go:383-399 | In every valid controller, whatever calls led to it, all crashes since the last Reset obey the restart-rate bound; once the end of the root context has cut a back-off short, those up to and including the one whose back-off it was. |
| Controller.Controller.AskDetector | internal/controller/controller.go:383-387 | Record, Count and Backoff, each with its own clock readings, append one crash and give the delay the full history gives. |
| Controller.Controller.HandleUnexpectedExit | internal/controller/controller.go:362-400 | Clean exits, active builds and running servers leave everything alone; any other exit records exactly one crash; the server is the next generation if and only if moreover the context has not ended, the spawn succeeds and no back-off that is due is cut short, and otherwise unchanged. |
| Controller.Controller.BuildAndRestart | internal/controller/controller.go:300-354 | Pre-hook failure, build failure and staleness leave server and detector untouched; otherwise the history is cleared and the next generation is up exactly if Start succeeds. |
| CrashDetector.WindowRefinesHistory | internal/crash/crash.go:65-120 | After any calls under a monotone clock, the stored times answer at `now` as the unpruned list of crashes since the last Reset does. |
| CrashDetector.StoredIsRecent | internal/crash/crash.go:63-120 | After each crash or question the detector stores exactly the crashes since the last Reset still in the window, so an expired one is never kept. |
| CrashDetector.AfterAfter | internal/crash/crash.go:106-120 | Pruning with an older cutoff first loses nothing a newer cutoff keeps. |
| CrashDetector.AfterExactly | internal/crash/crash.go:106-120 | A prune keeps each crash strictly younger than the window, as often as it was recorded, and no other. |
| CrashDetector.AfterIsSuffix | internal/crash/crash.go:106-120 | Of times in order it keeps a suffix, in the same order. |
| CrashDetector.Detector.constructor | internal/crash/crash.go:41-57 | Non-positive windows, thresholds below one and negative backoffs become the defaults. |
| CrashDetector.Detector.Prune | internal/crash/crash.go:108-120 | Compacting over the slice's own backing array leaves exactly the times after the cutoff, in order. |
| CrashDetector.Detector.Append | internal/crash/crash.go:68-68 | Appending in place or into a larger array adds the time at the end and keeps the rest. |
| CrashDetector.Detector.Record | internal/crash/crash.go:65-70 | Adds one crash and prunes with a second clock reading, keeping the stored slice equal to its specification. |
| CrashDetector.Detector.Count | internal/crash/crash.go:73-78 | The number of crashes since the last Reset inside the window, counted on the unpruned history. |
| CrashDetector.Detector.IsLooping | internal/crash/crash.go:82-87 | True exactly if that number has reached the threshold. |
| CrashDetector.Detector.Backoff | internal/crash/crash.go:91-96 | The backoff exactly while that number has reached the threshold, otherwise zero. |
| CrashDetector.Detector.Reset | internal/crash/crash.go:100-104 | Empties the history without writing to the old backing array. |
| RestartRate.RestartRateBound | internal/crash/crash.go:65-120 | Between two Resets any half-open interval as long as the window holds at most threshold + ceil(window/backoff) - 1 recorded crashes. |
| RestartRate.DefaultBoundIsTight | internal/crash/crash.go:22-26 | With the defaults the bound is six crashes in ten seconds, and a log that keeps the pace attains it. |
| RestartRate.PacedExtend | internal/controller/controller.go:383-394 | A visit no earlier than the last one allows keeps the pace, and loops exactly if its window holds the threshold. |
| Debounce.LoopRefinesRule | internal/debounce/debounce.go:63-93 | On inputs in time order, the timer loop allows a sequence exactly if every attempt has an unfired input before it and none in the preceding quiet window. |
| Debounce.TimerIsUnfired | internal/debounce/debounce.go:53-91 | The timer is active exactly while an input is unfired, and is due one quiet window after the last input. |
| Debounce.AttemptsAreGaps | internal/debounce/debounce.go:63-93 | On every trace of the loop in time order, the attempts are, one for one and in order, the gaps of more than one quiet window between the inputs, computed from the input times alone, and one more for the last burst once answered, if and only if no input is consumed after an expired deadline; for inputs no two consecutive ones of which are exactly one window apart. |
| Debounce.GapsAreAnswered | internal/debounce/debounce.go:63-93 | With such ties too, every gap of more than one quiet window is answered. |
| Debounce.AttemptsInTime | internal/debounce/debounce.go:63-93 | On every trace in time order each attempt follows the input it ends by at least one quiet window and comes no later than the next input. |
| Debounce.OneAttemptPerBurst | internal/debounce/debounce.go:10-12 | On those traces the bursts, maximal runs of inputs at most one quiet window apart, number the attempts, plus one while the last burst is unfired, if and only if the trace is prompt in that sense. |
| Debounce.PromptIsInTime | internal/debounce/debounce.go:69-91 | Promptness in terms of the timer: no input is consumed later than the deadline of an armed timer. |
| Debounce.PromptRunExists | internal/debounce/debounce.go:63-93 | Every list of input times in order has a prompt run that consumes exactly it. |
| Debounce.Debouncer.constructor | internal/debounce/debounce.go:31-36 | A negative quiet window becomes zero, and nothing is armed. |
| Debounce.Debouncer.Run | internal/debounce/debounce.go:48-94 | The loop attempts exactly where the schedule fires; afterwards timerActive holds exactly if an input is unfired, and a trigger is pending exactly if one was or an attempt was made. |
| Logstream.ChunkingDoesNotMatter | internal/logstream/logstream.go:68-112 | Every way of cutting a stream into writes followed by Flush emits the stream's line form if and only if every line is shorter than the cap. |
| Logstream.NothingLost | internal/logstream/logstream.go:68-96 | For any writes the emitted payloads followed by the residual buffer are the input, and the residual stays below the cap. |
| Logstream.LinesAreLines | internal/logstream/logstream.go:75-85 | The pieces cut off are exactly newline-terminated and hold no other newline. |
| Logstream.OutputConserves | internal/logstream/logstream.go:68-112 | For any writes followed by Flush the payloads are the input, with one newline more exactly if a fragment was still pending. |
| Logstream.LineFormIsTheStream | internal/logstream/logstream.go:98-112 | The line form consists of lines and is the stream, with one newline added exactly if the stream is nonempty and does not end in one. |
| Logstream.LinesAreUnique | internal/logstream/logstream.go:75-85 | It is the only way to cut the stream into lines. |
| Logstream.CallAll | internal/logstream/logstream.go:39-112 | Any sequence of Write and Flush calls on any number of distinct writer objects of one sink sends the stream exactly the shared emissions, each with its writer's prefix, and leaves each writer the buffer it would have alone. |
| Logstream.SinkSeparates | internal/logstream/logstream.go:39-54 | One writer's emissions picked out of that shared stream are, in order and unbroken, what it emits alone. |
| Logstream.IndexNewline | internal/logstream/logstream.go:76-79 | The first newline's index, or -1 if there is none. |
| Logstream.Writer.Emit | internal/logstream/logstream.go:115-125 | One call on the stream with prefix and line; the first error is kept. |
| Logstream.Writer.EmitLines | internal/logstream/logstream.go:74-85 | The loop emits every complete line of the buffer, prefixed and in order, and leaves the tail. |
| Logstream.Writer.Write | internal/logstream/logstream.go:68-96 | Reports the full length and the first error, emits exactly the specified lines and keeps the specified buffer. |
| Logstream.Writer.Flush | internal/logstream/logstream.go:100-112 | Emits a pending fragment with a newline of its own, or nothing, and empties the buffer. |
| Filter.New | internal/filter/filter.go:98-126 | For every name and extension: ignored if built in or excluded, unless included. |
| Filter.IncludeWins | internal/filter/filter.go:186-205 | On a configured filter a component is ignored exactly if it is not included and is built in, excluded or dot-prefixed. |
| Filter.NameVerdict | internal/filter/filter.go:207-242 | On a configured filter a base name is unwanted exactly if it starts with a dot, ends in a tilde, stands between two #, has a built-in artefact extension that is not included, or there is an include list without its extension; capitals in the extension do not matter. |
| Filter.ExtExactly | internal/filter/filter.go:231 | The extension judged is the rest of the name from its last dot on, and there is none exactly if there is no dot. |
| Filter.CleanRules | internal/filter/filter.go:187 | The rules of filepath.Clean, wherever in a path they apply; nothing that no rule applies to is changed. |
| Filter.ShouldIgnoreDir | internal/filter/filter.go:186-205 | The loop answers whether some component of the cleaned, scoped path is ignored. |
| Filter.ShouldIgnoreFile | internal/filter/filter.go:211-245 | The sequence of checks answers whether the base name is unwanted or the directory ignored. |
| Filter.RootDoesNotMatterForDirs | internal/filter/filter.go:148-205 | For a clean absolute root and a path that does not escape it, the rooted verdict on root/rel is the unrooted verdict on rel. |
| Filter.RootDoesNotMatterForFiles | internal/filter/filter.go:148-245 | The same for a file, whose last component is a name; the directory part may be anything that does not escape. |
| Filter.RootedFileIsCleaned | internal/filter/filter.go:148-245 | For any path that does not escape and does not come down to the root itself, the rooted file verdict is the unrooted verdict on the cleaned path. |
| Filter.TrailingSlash | internal/filter/filter.go:211-245 | With a trailing slash the two verdicts agree if and only if the last name is not ignored as a directory and by nothing else; SlashMatters is such an input, node_modules/. |
| Filter.TrailingDots | internal/filter/filter.go:211-245 | With a last component . or .. the two verdicts agree if and only if the last name of the cleaned path is unwanted as a file or one before it is bad. |
| Filter.TheRootItself | internal/filter/filter.go:211-245 | For a path that comes down to the root itself the root's own names decide: the rooted verdict is that its last name is unwanted or one before it bad. TheTopItself is the case of the root /. |
| Filter.TheRootAlone | internal/filter/filter.go:211-220 | The unrooted verdict on such a path is always "ignored". |
| Filter.DirVerdict | internal/filter/filter.go:154-205 | Below the root a directory is ignored exactly if one of its names below the root is bad. |
| Filter.FileVerdict | internal/filter/filter.go:154-245 | Below the root a file is ignored exactly if its base name is unwanted or one of its directories below the root is bad. |
| Filter.IgnoredDirsBeneath | internal/filter/filter.go:186-205 | Below the root, ignoring a directory implies ignoring every directory beneath it. |
| Filter.IgnoredFilesBeneath | internal/filter/filter.go:207-245 | Below the root, ignoring a directory implies ignoring every file beneath it. |
| Filter.VerdictAnywhere | internal/filter/filter.go:154-205 | An absolute directory is ignored exactly if one of the names that are judged is bad: those below the root inside the tree, all of them outside it. |
| Filter.RelativeVerdict | internal/filter/filter.go:156-170 | A relative path is judged whole whatever the root. |
| Filter.IgnoredBeneathExactly | internal/filter/filter.go:133-205 | Anywhere in the file system, ignoring a directory implies ignoring a directory beneath it if and only if the step down does not enter the root, or some name below the root is bad by itself. RootSurvives is the familiar case: /tmp is ignored, the root /tmp/p is not. |
| Filter.IgnoredFileBeneathExactly | internal/filter/filter.go:133-245 | The same for files, which may also be unwanted for their own name. |
| SourceTree.PrunedAllIsFiltered | internal/watcher/poller.go:154-188 | The walk that skips ignored directories finds exactly, and in the same order, the files ShouldIgnoreFile accepts in the whole tree. |
| SourceTree.NothingBeneath | internal/watcher/poller.go:165-177 | Beneath an ignored directory the unpruned walk finds nothing to keep. |
| SourceTree.WatchesCoverAll | internal/watcher/watcher.go:253-290 | Every file a scan reports lies in the start directory or in one the watching walk enters, so notification mode covers poll mode. |
| SourceTree.EnteredAllByPath | internal/watcher/watcher.go:253-290 | A walk enters a directory of the tree exactly if neither it nor a directory above it, below the start, is ignored, whether or not it holds anything. |
| SourceTree.FullAllByPath | internal/watcher/poller.go:154-188 | The unpruned walk finds exactly the files of the tree, each with what Info answers for it. |
| Poller.SnapshotIsFilteredTree | internal/watcher/poller.go:154-194 | A snapshot holds exactly the accepted files of the whole tree that could be looked at, each with a fingerprint it had. |
| Poller.Scan.Visit | internal/watcher/poller.go:157-188 | The walk callback adds exactly the pruned walk's files to the map and counts the directories it enters. |
| Poller.ReportedExactlyIfChanged | internal/watcher/poller.go:127-147 | A completed tick names a path if and only if it came, went or changed its fingerprint. |
| Poller.UnreportedStaysUnchanged | internal/watcher/poller.go:96-150 | Over any number of completed ticks, a path that none of them names has the identical fingerprint at the end, or was and is absent. |
| Poller.TickReplays | internal/watcher/poller.go:118-150 | Replaying one completed tick on the files known before gives the files known after, and every event fits. |
| Poller.HistoryReplays | internal/watcher/poller.go:96-150 | For any number of completed ticks, replaying all events on the baseline gives the last snapshot's paths; Create only when absent, Remove and Write only when present. |
| Poller.Poller.constructor | internal/watcher/poller.go:84-91 | The first scan is the baseline and emits nothing. |
| Poller.Poller.ReportPresent | internal/watcher/poller.go:127-139 | In any iteration order the loop reports, once each and truthfully, every new or changed path of the current snapshot. |
| Poller.Poller.ReportGone | internal/watcher/poller.go:141-147 | In any iteration order the loop completes the diff with the vanished paths. |
| Poller.Poller.Tick | internal/watcher/poller.go:118-150 | Swaps in the new snapshot and directory count, and emits the whole diff, or a truthful part of it when the context ends; a follower of completed ticks knows the snapshot's files. |
| WatchRace.NothingIsMissed | internal/watcher/watcher.go:175-290 | Over every interleaving of new directories and saves with the walks, whenever the watcher is idle with nothing to read every directory is watched and every save has been followed by an event. |
| WatchRace.WatcherMoves | internal/watcher/watcher.go:95-116 | As long as something is to be read, walked or searched the watcher has a step to take. |
| WatchRace.ListKeeps | internal/watcher/watcher.go:253-290 | Listing a directory after arming it leaves no directory made meanwhile without a watch to come. |
| Watcher.OnlyRelevantEvents | internal/watcher/watcher.go:138-197 | No ignored path is ever forwarded; a new directory forwards an event exactly if the whole tree beneath it holds an accepted file. |
| Watcher.SaveIsForwarded | internal/watcher/watcher.go:160-165 | From the names alone: any event that does not announce a new directory sends the consumer exactly itself if no directory on the way down from the root is bad and the file's own name is not unwanted, and nothing otherwise. |
| Watcher.NewDirectoryIsSeeded | internal/watcher/watcher.go:168-197 | A new directory with an accepted file in the tree beneath it sends exactly one event, for such a file and with the operation received; any other sends none. |
| Watcher.FirstIsAccepted | internal/watcher/watcher.go:220-248 | The search finds a file exactly if the whole tree holds an accepted one, and what it finds is accepted. |
| Watcher.ForgettingIsSafe | internal/watcher/watcher.go:208-218 | Forgetting a deleted path and all its descendants keeps every directory believed watched really watched, or its deletion still to be read. |
| Watcher.ForgettingMustCover | internal/watcher/watcher.go:150-158 | For any rule of what to forget on a deletion: striking the deletion off is safe in every situation if and only if the rule covers the path and everything beneath it. |
| Watcher.AddingIsSafe | internal/watcher/watcher.go:270-286 | Skipping directories already in the set is safe: with no deletion outstanding every visited directory ends up really watched. |
| Watcher.Watcher.AddDirRecursive | internal/watcher/watcher.go:253-290 | Adds exactly the start directory and the entered ones, less those the system refuses, and keeps the set truthful. |
| Watcher.Watcher.ForgetSubtree | internal/watcher/watcher.go:209-218 | Afterwards neither the path nor anything beneath it, however deep, is in the set; whatever is gone from the set was the path or beneath it, and nothing is new. |
| Watcher.Watcher.FirstRelevantFile | internal/watcher/watcher.go:222-248 | The walk that stops early returns the first file of the full pruned walk, or none. |
| Watcher.Watcher.HandleNewDir | internal/watcher/watcher.go:175-197 | An ignored directory changes nothing; otherwise the subtree is added and at most one event sent; with nothing refused or outstanding, every file a scan would report there has its directory watched. |
| Watcher.Watcher.HandleEvent | internal/watcher/watcher.go:138-166 | An event that does not announce a new directory is forwarded itself, if it is accepted and the consumer takes it, and nothing else is; a new directory forwards what NewDirectoryIsSeeded says. Removals and renames forget exactly the path and what is beneath it, an ignored new directory changes nothing, and the set stays truthful. |

## Left out

- killGroup, signals, shells, process groups and pid reuse: one step that confirms the reap or gives up.
- fsnotify and inotify: delivery, queue overflow and automatic removal of watches are assumed; `fw.Add` succeeds or is refused.
- `Watcher.Run`, `Poller.Run` and `send`: only "blocks until taken or the context ends" is kept. The choice between a notification watcher and the poller is not modelled.
- Command line, TOML, `Normalize`, `Validate`, colours, prefix padding, logging, streams of the child processes, the test server and the build scripts.
- FreshnessAtCommit: the version read is the tree at the moment the build command reads it; a command that reads the tree piecemeal is not modelled.
- NewestSaveIsServed: assumes that no server dies unclaimed meanwhile; one that keeps crashing keeps being restarted, at the rate `RestartRateBound` allows.
- ShutdownIsBounded: bounds steps, not time. That a claimed server dies is part of the schedule only where kills are confirmed; otherwise Stop's giving up is.
- Time in the transition system: an armed timer may fire at any moment and a back-off lasts any length. The timed behaviour is in `Debounce` and `RestartRate`. The crash window never forgets there, so a back-off is possible after three crashes since the last Reset.
- Goroutine launches are part of the step before them, and a context's own goroutine is the `Propagate` step.
- A build command that is killed before it has read the tree cannot write the binary, so it leaves no orphan in the model.
- AttemptsAreGaps: two inputs exactly one quiet window apart may be taken with or without an attempt between them, since the select is free to choose; the statement is for inputs without such ties, and `GapsAreAnswered` and `AttemptsInTime` cover the rest.
- RateBound: crashes recorded after the end of the root context has cut a back-off short are not bounded; no server is started any more.
- BuildAndRestart: the method runs with nobody else acting, as does HandleUnexpectedExit; their interleavings are the transition system's.
- Stop: the method gives the sequential contract; concurrent Stops are the transition system's.
- Server fields that no other code reads (pid, streams, kill delay) are not modelled.
- Filter: Unix separators only; `ToLower` folds ASCII letters; a root is absolute and clean, as the configuration makes it; an empty root is "no root".
- New: the four maps are sets of keys, and its loops over lists are the two helper methods AddAll and DeleteAll.
- Trees hold files and directories with well-formed names; entries that cannot be listed are simply absent from the tree a walk sees, as the walks tolerate them. A file that vanishes between listing and Info is modelled.
- Write: a write's bytes are a value, so the sharing of the backing array between the buffer and its tail is not modelled; the loop over complete lines is the separate method EmitLines.
- NothingIsMissed: no directory is removed and no watch refused during the run; refused watches and deletions are in `Watcher`, whose invariant covers them. A file removed from a directory that is not armed yet is reported by nobody.
- Visit: modification times are integers, so two times that differ only in location or monotonic reading do not occur.
