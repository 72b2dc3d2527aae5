# Verification of the judging back end

This project models how a submission travels through the online judge and proves what the code guarantees on the
way: the scheduler's global queue and per-sandbox channels, the box allocator of each sandbox server, the throttled
status messages that connect the two, the compile / execute / merge / score pipeline with its persistent best score
and report, the leaderboard queries, and the password reset tokens.

`dafny verify dfyconfig.toml` checks everything.

## How it is built

* **Concurrent parts are step machines.** Every mutex-held block, queue operation, channel operation and message is
  one action; `Apply` is total (an action that cannot run changes nothing), so "for every list of actions" means
  every interleaving of every number of goroutines. The invariants are in `BoxAllocator`/`BoxInvariant` and
  `Scheduler`/`SchedulerInvariant`; `BoxTheorems`, `BoxCapacity`, `SchedulerTheorems` and `SchedulerFairness` say what
  they mean over whole runs. `System` puts the scheduler, any number of servers and the messages together, and
  `JudgedSubmissions` adds the handlers and the submissions table they and the judging goroutines write to.
* **The objects are classes** whose methods follow the Go methods statement by statement
  (`SandboxServer.Sandbox`, `SchedulerServer.SandboxScheduler`, `StatusFeed.StatusSender`, `ScoreParser.JSONParser`,
  `ScoreParser.Box`, `JudgeRun.Judge`, `Rescore.SubmissionTable`, `ResetToken.Server`). `Valid()` says that the
  fields are where the recorded history, run on the machine, leads; between two steps of a method any steps of other
  goroutines may happen (`Interference`, `Elsewhere`). A method that skipped or swapped a step would not reach the
  machine state its contract names, and a goroutine's own actions are fixed exactly (`Trace`).
* **Outside programs are oracles**: an `isolate` run, a clone, a database answer, a clock or a timer is a parameter.

| files | contents |
|---|---|
| `Folds`, `Numerals` | contents of a sequence of places as a multiset; decimal numerals |
| `BoxAllocator`, `BoxInvariant`, `BoxTheorems`, `BoxCapacity`, `BoxFairness`, `BoxRuns`, `SandboxServer` | one sandbox server |
| `Scheduler`, `SchedulerInvariant`, `SchedulerTheorems`, `SchedulerTime`, `SchedulerFairness`, `SchedulerRuns`, `Greedy`, `SchedulerServer` | the scheduler |
| `System` | scheduler, servers and messages together |
| `StatusFeed`, `SandboxInTime` | status throttling, liveness, and the latter inside the scheduler machine |
| `Pipeline`, `Report`, `ScoreParser`, `JudgeRun` | judging one submission |
| `Leaderboard`, `LeaderboardTheorems`, `LeaderboardResponses`, `Rescore` | leaderboards and the writes to submissions |
| `JudgedSubmissions` | the whole back end with its submissions table |
| `ResetToken` | reset tokens |

## What the proofs found

Where the code does less than one might expect, a concrete run or input is given and the exact condition proved.

* **Shutdown can miss a job.** The wait loop of cmd/sandbox-server/main.go:128-152 reads WaitingCount, then
  ProcessingCount, and leaves when both were 0. When ProcessingCount is 0, all jobs are over exactly when none is
  queued at that moment and the worker holds none (`ShutdownExactly`, and `AwaitCompletion` for the loop). Both can
  fail: `ShutdownMissesHeldJob` is a run with a job in the worker's hand, `ShutdownReadsApart` one with a job queued
  between the reads.
* **Every received hand-off costs a box for good.** `Release` hands a box to a waiter without adding to
  availableCount, yet `Reserve` subtracts (sandbox/sandbox.go:61-63, 74-76). `CountExactly` gives the counter in every
  state; at rest a server offers its boxes less the received hand-offs and the boxes stranded with timed-out waiters
  (`RestLaw`). With an idle worker it offers none ever again exactly when hand-offs, stranded boxes and boxes in use
  that are bound for given-up channels make up all boxes (`ExhaustedExactly`). `OnlyBoxDoomed` and `OnlyBoxStranded`
  are runs of a one-box server that end there, before and after the box is stranded.
* **A rollback after a report** leaves AvailableCount exactly one above the report and WaitingCount one below it
  (`StaleRollBack`), possibly at -1 (`RollbackAfterReport`); `OptimisticCounters` shows that this is the only deviation.
* **The scheduler can panic**, by closing or sending on a closed channel. `PanicsOnlyOnClosed` says at which two steps;
  `SweepThenDisconnect` and `DisconnectThenPush` are runs that reach them.
* **Compile failures are executed.** Compile failures get COMPILE_ERROR (sandbox/runHandler.go:287), the check before
  execution looks for FAILED (:302): the branch "COMPILE NOT SUCCESS" is dead (`JudgeTargets`).
* **"Exited with error status 1" also matches 10-19 and 100-199** (`StartsWithOne`), so a program killed by a signal
  counts as executed whatever else it printed (`KilledBySignal`; `ExitLineCounts` says for which statuses).
* **A reconnect alone sends no status**, because lastStatus belongs to the process (`SilentConnection`).
* **A reconnected sandbox can drop out.** The old stream's end deletes by id, whoever has that id by then
  (services/sandbox_scheduler.go:59-68). `ReconnectThenDisconnect` is a run after which the new instance is active and
  connected but not registered; `RegisteredExactly` says which events take an instance out of the map.
* **A suite named twice in a report** can exceed the configured maximum (`RepeatedSuiteExceeds`). Whatever the tests'
  outcomes, a suite stays within its maximum exactly when that is 0 or at most one nonempty suite has the name
  (`SuiteWithinMaximum`), and the total stays within the configured sum exactly when the scores counted once for each
  nonempty suite do (`TotalWithinConfigured`).
* **A target listed twice** is judged as if it had compiled as it did last (`JudgeTargets`, for every list). That differs
  from the verdict of its own runs exactly when one of the two compile runs failed and the other did not
  (`RepeatedTarget`; `RepeatedTargetExample` is a list where it does).
* **The leaderboards read three times.** Count, totals and details are separate statements, and scores may be stored in
  between. A listed total is then at most the sum of the scores shown, and equal to it exactly when none of those was
  bettered after the totals were read; the public count is the list's length less the users first listed after it was
  read (`GetLeaderboard`, `GetExamLeaderboard`). `ResponseBehind` is a run in which both fall short.
* **The exam's count** can exceed the length of its list, because the count query ignores is_active
  (`ExamCountExceeds`; `ExamCount` gives the exact condition).

## Model

| member | source | states |
|---|---|---|
| BoxInvariant.EveryScheduleKeepsInv | sandbox/sandbox.go:51-91 | After every interleaving of the worker, any number of AddJob calls and any number of judging goroutines: each box is in exactly one place, availableCount equals free boxes + boxes between count and enqueue + a box between dequeue and subtract - AddJobs in flight - hand-offs received, and each waiter channel is sent to and closed at most once. |
| BoxInvariant.HandOffKeepsInv | sandbox/sandbox.go:72-81 | A releaser always finds the waiter's channel open and empty: no panic, and the select's default branch is never taken. |
| BoxInvariant.ReceiveKeepsInv | sandbox/sandbox.go:60-63 | A waiter never reads the zero value of a closed channel as box 0: a closed channel still holds its box. |
| BoxTheorems.NoSharedBox | sandbox/runHandler.go:46-61 | Two judging goroutines never use the same box, and a box in use is in no queue, hand or channel. |
| BoxTheorems.OfferedAtMost | sandbox/sandbox.go:93-103 | Free boxes, counted boxes and boxes inside channels are different boxes; when all are offered nobody holds another. |
| BoxTheorems.CountsInRange | sandbox/sandbox.go:93-103 | AvailableCount and ProcessingCount stay between 0 and the number of boxes. |
| BoxTheorems.ProcessingZero | sandbox/sandbox.go:101-103 | ProcessingCount is 0 exactly when no AddJob is in flight, no hand-off was ever received and every box is free or on its way back. |
| BoxTheorems.ShutdownExactly | cmd/sandbox-server/main.go:128-135 | Whenever ProcessingCount is 0, no AddJob is in flight and none is running, and all jobs are over if and only if none is queued and the worker holds none. |
| BoxTheorems.StrandedLaw | sandbox/sandbox.go:57-66 | Each timed-out waiter's channel either still waits for a box or has swallowed exactly one, and no other unread box exists but the current waiter's. |
| BoxTheorems.StrandedBound | sandbox/sandbox.go:64-65 | Stranded boxes never outnumber the Reserve calls that timed out. |
| BoxTheorems.StrandedForever | sandbox/sandbox.go:70-76 | A box sent to a timed-out waiter stays there in every later state. |
| BoxCapacity.CountExactly | sandbox/sandbox.go:51-91 | availableCount equals the number of boxes less received hand-offs, stranded boxes, boxes in a goroutine's or the worker's hands and AddJobs in flight, in every reachable state. |
| BoxCapacity.RestLaw | sandbox/sandbox.go:60-63 | At rest AvailableCount is the number of boxes less received hand-offs and stranded boxes where that is positive, and otherwise 0. |
| BoxCapacity.ExhaustedExactly | sandbox/runHandler.go:46 | An idle worker stays idle in every continuation, and AvailableCount 0, if and only if hand-offs + stranded boxes + min(boxes in use, channels given up and still to be sent into) is at least the number of boxes. |
| BoxRuns.OnlyBoxDoomed | sandbox/sandbox.go:69-76 | A run after which a one-box server is lost although nothing is stranded yet. |
| BoxRuns.ShutdownMissesHeldJob | sandbox/runHandler.go:54-55 | A run in which both counts are 0 while the worker holds a job it has not started. |
| BoxRuns.ShutdownReadsApart | cmd/sandbox-server/main.go:129-132 | A run in which the first read sees no queued job, the later one no processing, and the job is queued. |
| BoxRuns.OnlyBoxStranded | sandbox/sandbox.go:57-66 | A run of a one-box server whose only box is swallowed by a timed-out waiter's channel. |
| SandboxServer.OthersKeep | sandbox/runHandler.go:46-61 | Steps of other goroutines never move the worker, nor a given judging or adding goroutine. |
| SandboxServer.Sandbox.constructor | sandbox/sandbox.go:29-49 | A new sandbox has every box free once and counted. |
| SandboxServer.Sandbox.Reserve | sandbox/sandbox.go:51-67 | Takes the head of the free queue when there is one; otherwise queues a channel and gets a box handed over or times out with -1; exactly these steps of the worker, with anything in between. |
| SandboxServer.Sandbox.AwaitBox | sandbox/sandbox.go:60-66 | The select: the channel's box, or the timer; the channel is never read empty and closed. |
| SandboxServer.Sandbox.Release | sandbox/sandbox.go:69-91 | The box goes into the channel of the longest waiting Reserve, which is then closed, or without one is counted and then put last in the free queue; exactly these steps of the goroutine, with anything in between. |
| SandboxServer.Sandbox.SendBox | sandbox/sandbox.go:74-76 | The send case succeeds at once. |
| SandboxServer.Sandbox.AddJob | cmd/sandbox-server/main.go:415-438 | Within this call and in this order: subtracts, puts the job at the end of the queue when both lookups succeed and drops it otherwise, adds back. |
| SandboxServer.Sandbox.ReleaseJob | sandbox/sandbox.go:119-134 | Removes and returns the head of the job queue, or nothing when it is empty. |
| SandboxServer.Sandbox.AssignJob | sandbox/runHandler.go:38-62 | Nothing when shutdown has begun; otherwise the worker does whole rounds (take a job, reserve, launch or put back) while boxes are counted, jobs are queued and shutdown has not begun, stops for the first reason that holds, and never leaves the loop with a job in hand. |
| BoxFairness.JobsFifo | sandbox/sandbox.go:109-134 | Over any schedule: jobs taken, then jobs queued = jobs queued at first, then jobs added by AddJob or put back, in order. |
| BoxFairness.BoxesFifo | sandbox/sandbox.go:51-91 | Over any schedule: boxes taken, then boxes free = boxes free at first, then boxes put back, in order. |
| BoxFairness.WaitersFifo | sandbox/sandbox.go:57-76 | Over any schedule releases serve the waiting Reserve calls in the order in which they began to wait. |
| BoxFairness.JobAttempted | sandbox/runHandler.go:46-61 | A job at position p has been taken once the worker has looked at the queue p + 1 times, whatever is added meanwhile. |
| SandboxServer.Sandbox.AwaitCompletion | cmd/sandbox-server/main.go:128-152 | When the wait ends because both counts, read apart, were 0: no AddJob is in flight, nothing is being judged, no job was queued at the first read, and all jobs are over if and only if none is queued now and the worker holds none. |
| SchedulerInvariant.EveryScheduleKeepsInv | services/sandbox_scheduler.go:55-357 | After every interleaving of submissions, dispatcher, streams, senders, sweeps and Close: each job is in exactly one place, the counters match the last reports, registered channels are open, buffers hold at most 100 jobs. |
| SchedulerTheorems.OptimisticCounters | services/sandbox_scheduler.go:325-356 | In every reachable state available + waiting equals the same sum in the last report, and available, never negative, equals the reported one less the younger decrements that stand, plus one if an older one was rolled back after the report; so it exceeds the report, by one, if and only if that happened and no younger decrement stands. |
| SchedulerTheorems.PanicsOnlyOnClosed | services/sandbox_scheduler.go:59-68 | The program panics if and only if the dispatcher sends on, or an ending stream closes, a channel closed by somebody else; the sweep and Close never do. |
| SchedulerTheorems.StaleRollBack | services/sandbox_scheduler.go:347-354 | Until a decrement older than the last report is rolled back the counters equal the report; the rollback leaves exactly available + 1 and waiting - 1. |
| SchedulerTime.HeardExactly | services/sandbox_scheduler.go:83-138 | In every run LastSeen is the time of the instance's Connect or of the last status accepted from its stream, both read off the schedule, and the report is that status. |
| SchedulerTime.ActiveExactly | services/sandbox_scheduler.go:255-280 | In every run an instance is active if and only if its stream has not ended and no sweep has found it registered and silent for more than a minute. |
| SchedulerTime.RegisteredExactly | services/sandbox_scheduler.go:59-104 | In every run an instance is registered if and only if nobody has connected under its id since, no stream of an instance with its id has ended, no sweep has found it silent for more than five minutes and Close has not been called. |
| SchedulerTime.SweepDecides | services/sandbox_scheduler.go:255-280 | By the time since an instance was last heard of, as the schedule tells it: up to a minute a sweep leaves it alone, after more than one it is no candidate, and exactly after more than five it is removed and its channel closed. |
| SchedulerTime.CloseEnds | services/sandbox_scheduler.go:283-291 | Close registers nobody any more, closes the channels of exactly the registered instances and keeps what is in them. |
| SchedulerRuns.SweepThenDisconnect | services/sandbox_scheduler.go:59-68 | A run in which a swept sandbox's stream ends and closes its channel a second time: a panic. |
| SchedulerRuns.DisconnectThenPush | services/sandbox_scheduler.go:343-344 | A run in which a sandbox disconnects between being chosen and the send: a panic. |
| SchedulerTheorems.NeverEligibleAgain | services/sandbox_scheduler.go:176-182 | An instance once inactive or unregistered is never a candidate again, whatever arrives. |
| SchedulerTheorems.WaitingJobHasSender | services/sandbox_scheduler.go:156-173 | A job waiting in a channel has a sender that is ready (and can take it at once), busy, or broken by a failed Send. |
| SchedulerTheorems.StrandedForever | services/sandbox_scheduler.go:165-169 | After a failed Send the jobs left in that channel stay there for ever. |
| SchedulerTheorems.OnlySendFailuresDrop | services/sandbox_scheduler.go:165-169 | The dropped jobs of a run are exactly those whose Send failed, each once. |
| SchedulerRuns.RollbackAfterReport | services/sandbox_scheduler.go:347-354 | A run that ends with available one above the last report and waiting at -1. |
| SchedulerRuns.ReconnectThenDisconnect | services/sandbox_scheduler.go:59-68 | A run in which a sandbox's old stream ends after it has connected again: its new instance, active and connected, is no longer registered. |
| SchedulerFairness.Fifo | services/sandbox_scheduler.go:298-320 | Over any schedule: jobs attempted, then jobs queued = jobs queued at first, then jobs submitted or put back, in order. |
| SchedulerFairness.NoStarvation | services/sandbox_scheduler.go:298-320 | A job at position p is attempted within p + 1 passes, whatever arrives meanwhile. |
| SchedulerFairness.ChannelFifo | services/sandbox_scheduler.go:156-173 | Over any schedule each sandbox is sent its jobs in the order in which they were assigned to it. |
| SchedulerFairness.FailingPassesRotate | services/sandbox_scheduler.go:307-315 | k failing passes rotate the queue by k and change nothing else. |
| SchedulerFairness.FailingPassesRestore | services/sandbox_scheduler.go:307-315 | As many failing passes as there are jobs restore the state. |
| Greedy.Balanced | services/sandbox_scheduler.go:176-194 | Repeated greedy choice uses one unit per pick, touches nothing else, and leaves each place it used within one of the largest remainder. |
| Greedy.Optimal | services/sandbox_scheduler.go:176-194 | No placement of as many jobs leaves a smaller largest remainder. |
| SchedulerServer.SandboxScheduler.constructor | services/sandbox_scheduler.go:40-51 | A new scheduler has no instances and an empty queue, and is in the machine's initial state. |
| SchedulerServer.SandboxScheduler.ReserveJob | services/sandbox_scheduler.go:197-211 | The job goes to the end of the global queue. |
| SchedulerServer.SandboxScheduler.HandleConnect | services/sandbox_scheduler.go:81-97 | A new active instance without a status, seen now, registered under the id in place of any older one. |
| SchedulerServer.SandboxScheduler.HandleStatus | services/sandbox_scheduler.go:134-142 | The status is replaced and LastSeen is now; nothing else of the instance, and no other instance, changes. |
| SchedulerServer.SandboxScheduler.StreamEnds | services/sandbox_scheduler.go:59-68 | The instance becomes inactive, its channel closed, and whatever has its id is taken out of the map. |
| SchedulerServer.SandboxScheduler.CleanupInactiveInstances | services/sandbox_scheduler.go:255-280 | The loop over the map: afterwards exactly the instances heard of within five minutes are registered, those silent for more than a minute inactive, and the removed ones' channels closed. |
| SchedulerServer.SandboxScheduler.GetBestSandbox | services/sandbox_scheduler.go:176-194 | Stated on the fields: returns a registered, active instance with a status and free boxes that has at least as many of them as every other such instance, and nothing exactly when there is none. |
| SchedulerServer.SandboxScheduler.AssignJobToSandbox | services/sandbox_scheduler.go:325-357 | On success the job is in the channel of a fullest instance whose counter fell by one; on failure the state is unchanged and no instance is eligible or a fullest one's channel is full. |
| SchedulerServer.SandboxScheduler.ProcessJobQueue | services/sandbox_scheduler.go:298-320 | One pass assigns the first jobs greedily, puts at most one back at the end, terminates, and with room in the channels assigns exactly min(queue length, the boxes reported free by registered active instances with a status). |
| System.JobsInOnePlace | services/sandbox_scheduler.go:294-357 | In every run of scheduler, servers and messages each submitted job is in exactly one place. |
| System.JudgedOnce | sandbox/runHandler.go:46-61 | No job is being judged or has been judged twice, on one server or on two. |
| System.JudgedGrows | sandbox/runHandler.go:60 | What is being judged or has been judged remains so at every step. |
| System.EveryServerGood | sandbox/sandbox.go:51-91 | In every run of the whole system every server satisfies the allocator's invariant. |
| System.OnlyFailuresDrop | services/sandbox_scheduler.go:165-169 | In every run of the whole system the dropped jobs are exactly those whose Send or AddJob failed, each once. |
| BoxJobs.StepKeepsJobs | cmd/sandbox-server/main.go:415-433 | On a server only a new AddJob brings in a job, and no action loses or copies one. |
| BoxJobs.OnlyAddFailuresDrop | cmd/sandbox-server/main.go:420-428 | The jobs a server has dropped are exactly those whose AddJob failed. |
| StatusFeed.StatusSender.SendCurrentStatus | cmd/sandbox-server/main.go:356-412 | Sends the four numbers exactly when one changed or 15 s have passed since the last message, and the record then holds the current numbers, sent or not. |
| StatusFeed.ThrottlingLosesNothing | cmd/sandbox-server/main.go:347-396 | Once a connection has carried a message, its last message equals the snapshot of its latest call. |
| StatusFeed.SilentConnection | cmd/sandbox-server/main.go:347-375 | A connection is silent exactly as long as nothing differs from the process's last message and that is younger than 15 s. |
| StatusFeed.LivingStaysActive | services/sandbox_scheduler.go:255-280 | With 15.3 s + delay within 60 s a living sandbox is never marked inactive nor removed, over every run. |
| StatusFeed.SilentIsDropped | services/sandbox_scheduler.go:255-280 | A sandbox silent for more than 90 s is inactive and for more than 330 s gone. |
| SandboxInTime.LivingStaysEligible | services/sandbox_scheduler.go:255-280 | In the scheduler machine, among any other actions that leave its stream and id alone: a living sandbox with 15.3 s + delay within 60 s stays active and registered. |
| SandboxInTime.SilentIsIneligible | services/sandbox_scheduler.go:255-280 | In the scheduler machine, among any other actions: an instance not heard of for more than 90 s, by the schedule, is no candidate, and for more than 330 s not registered. |
| Pipeline.RunCompile | sandbox/runHandler.go:258-297 | One result per target in order, COMPILE_ERROR or SUCCESS by the run's outcome. |
| Pipeline.RunExecute | sandbox/runHandler.go:299-376 | One result per compiled target in order, by the outcome and the texts searched for. |
| Pipeline.MergeCompileAndExecuteResult | sandbox/runHandler.go:452-499 | Each execute result is merged with the last compile result of its target. |
| Pipeline.RunScore | sandbox/runHandler.go:378-430 | Failed targets pass through, the others get the outcome of their score run. |
| Pipeline.JudgeTargets | sandbox/runHandler.go:153-190 | For every list of targets and any outcomes: the same targets in the same order, each with the verdict of its first failing stage and the text that stage printed, where a repeated target counts as compiled as it did last; that is the verdict of its own runs if and only if the two compile runs agree. No target misses its compile result and no compile failure stops execution. |
| Pipeline.DistinctTargets | sandbox/runHandler.go:461-467 | A target listed once is judged by its own compile run. |
| Pipeline.SuccessExactly | sandbox/runHandler.go:338-371 | SUCCESS if and only if it compiled, ran or printed exit status 1, and scored. |
| Pipeline.FailureExactly | sandbox/runHandler.go:338-371 | RUNTIME_ERROR if and only if it compiled and the failed run printed an exit status but not status 1, and one of the four crash phrases; COMPILE_ERROR if and only if it did not compile. |
| Pipeline.SignalsCountAsExecuted | sandbox/runHandler.go:341-346 | Every exit status whose numeral starts with 1 counts as executed, whatever else was printed. |
| Pipeline.ExitLineCounts | sandbox/runHandler.go:341-365 | For every status n the exit line alone counts as executed if and only if n's numeral starts with 1. |
| Pipeline.KilledBySignal | sandbox/runHandler.go:341-346 | The exit line of a program killed by a signal (128 and its number) counts as executed, whatever else was printed. |
| Pipeline.RepeatedTarget | sandbox/runHandler.go:461-467 | On every list, the last compile run of a target gives it the verdict of its own compile run if and only if both failed or neither did. |
| Pipeline.RepeatedTargetExample | sandbox/runHandler.go:461-467 | A target listed twice whose first place ran and scored and is reported as a compile error. |
| Report.MergeJudgeResults | sandbox/result.go:92-143 | The stored report is the given one plus a suite for each failed target not named in it; the score is that of score.txt, or 0. |
| Report.MergedReport | sandbox/result.go:121-142 | Given suites stay a prefix, every failed target is named, only such are added, Tests, Failures and the suites grow alike, and counters that were sums stay sums. |
| Report.SuitePerFailure | sandbox/result.go:127-142 | A target not named by the given report gets exactly one suite for each of its failed results, any other gets none. |
| ScoreParser.JSONParser.ParseScore | sandbox/grp_parser/main.go:124-128 | The task map has exactly the configured suites, each with the last score configured for it. |
| ScoreParser.JSONParser.Parse | sandbox/grp_parser/main.go:131-157 | Each configured nonempty suite gets points that are to its score as its passing cases to all its cases, other suites stay as they are, and the score grows by the sum of the points. |
| ScoreParser.Proportion | sandbox/grp_parser/main.go:137-154 | Points times cases = cases without failure or error times score. |
| ScoreParser.GoodAndBad | sandbox/grp_parser/main.go:137-154 | A suite of some passing and some failing cases, in any order, earns the passing ones' share of its score. |
| ScoreParser.ShareInRange | sandbox/grp_parser/main.go:151-154 | A suite earns between 0 and its maximum, the maximum exactly when it is weightless or all cases pass. |
| ScoreParser.TotalByWeights | sandbox/grp_parser/main.go:131-157 | The total over the report equals the total over the configuration. |
| ScoreParser.TotalAgainstConfigured | sandbox/grp_parser/main.go:131-157 | With distinct names and non-negative scores the total lies between 0 and the configured sum and reaches it exactly when every positively weighted suite is present, nonempty and passes. |
| ScoreParser.SuiteWithinMaximum | sandbox/grp_parser/main.go:151-154 | Over all outcomes of a report's tests a configured suite earns at most its score, if and only if that is 0 or at most one nonempty suite has its name. |
| ScoreParser.TotalWithinConfigured | sandbox/grp_parser/main.go:131-157 | Over all outcomes of a report's tests the total is at most the configured sum, if and only if the scores counted once per nonempty suite are. |
| ScoreParser.RepeatedSuiteExceeds | sandbox/grp_parser/main.go:151-154 | A report in which one suite, listed twice, earns twice its configured score. |
| ScoreParser.RoundsToNearest | sandbox/grp_parser/main.go:190 | The two-decimal rounding is within half a hundredth, goes to the even hundredth when two are equally near, and is idempotent. |
| ScoreParser.RoundMonotone | sandbox/grp_parser/main.go:190 | Rounding keeps the order. |
| ScoreParser.Box.WriteScore | sandbox/grp_parser/main.go:165-191 | score.txt gets the rounding of the larger of the old and the new score, and the result tells whether the old one was not larger. |
| ScoreParser.Box.Conclude | sandbox/grp_parser/main.go:226-241 | message.txt becomes this run's report exactly when the stored score was not larger. |
| ScoreParser.BestIsMaximum | sandbox/grp_parser/main.go:183-188 | The reference best score is an upper bound of all scores and one of them. |
| ScoreParser.ScoreFileHoldsBest | sandbox/grp_parser/main.go:165-191 | After any runs score.txt holds the rounding of the maximum of all scores, although unrounded scores are compared with rounded ones. |
| ScoreParser.MessageMatchesScore | sandbox/grp_parser/main.go:226-241 | message.txt is the report of a run whose rounded score is the one in score.txt. |
| JudgeRun.Judge.RunShellCommandByRepo | sandbox/runHandler.go:223-256 | Whatever fails, the box is released exactly once, the row ends with its final score, and only scores -3 and -1 are overwritten. |
| JudgeRun.Judge.RunShellCommand | sandbox/runHandler.go:72-221 | The same from the shutdown check to the stored score. |
| JudgeRun.EndsExactly | sandbox/runHandler.go:83-218 | The final score by what went wrong: -2 if and only if a step or the update failed, -1 if and only if there was nothing to store or a zero, otherwise the total. |
| JudgeRun.StoredCountsAsComputed | sandbox/runHandler.go:208-217 | Although an update with score 0 leaves -1 in the row, on the leaderboard the stored score counts as the computed one on every successful judging with a total of at least 0, and as 0 otherwise. |
| Leaderboard.DistinctOnGroups | handlers/score.go:826-840 | DISTINCT ON over rows ordered by score DESC gives one row per user and question, holding the clamped maximum. |
| Leaderboard.BestExactly | handlers/score.go:841-849 | In every grouped answer a score is at least 0 and at least each of that user's scores for the question, and is 0 or one of them. |
| Leaderboard.PublicRows | handlers/score.go:826-840 | The public queries look at exactly the submissions of existing non-administrators to active questions that belong to no exam. |
| Leaderboard.ExamRows | handlers/exam.go:967-981 | The exam's queries look at exactly the submissions of existing non-administrators to its active questions. |
| Leaderboard.LinkedRows | handlers/exam.go:983-989 | The exam's count looks at exactly the submissions of existing non-administrators to its questions, active or not. |
| Leaderboard.TotalMonotone | handlers/score.go:869-877 | If each of a user's best scores is matched or bettered, so is the sum. |
| Leaderboard.SameTotal | handlers/score.go:909-916 | Grouped queries over rows that agree on a user's submissions give that user the same total. |
| LeaderboardTheorems.TotalsAgree | handlers/score.go:869-916 | For every database, row order and page each listed user's total from DISTINCT ON equals the sum of the GROUP BY MAX scores. |
| LeaderboardResponses.ByUser | handlers/score.go:930-938 | The map holds each user's question scores in order. |
| LeaderboardResponses.SumLaws | handlers/score.go:869-877 | The sum totals are compared with is additive over lists, and of one score it is that score. |
| LeaderboardResponses.Assemble | handlers/score.go:941-958 | One entry per user of the page, in order, with that user's total and question scores. |
| LeaderboardResponses.EntryShowsBest | handlers/score.go:909-938 | Each entry shows exactly the questions its user has submitted to, each with the best of 0 and the scores in the table. |
| LeaderboardResponses.TotalsBehind | handlers/score.go:869-916 | With any orderly writes between the two statements each listed total is at most the sum of the user's scores read later, and equal if and only if none of those was bettered in between. |
| LeaderboardResponses.CountBehind | handlers/score.go:841-877 | A count read earlier is the list's length less exactly the users first listed in between. |
| LeaderboardResponses.GetLeaderboard | handlers/score.go:826-965 | An empty page is an error; otherwise, with writes between the three statements, entries come by falling total, nobody twice, each shows the best of 0 and the submitted scores for exactly the questions submitted to, and totals and count relate to the scores shown and the list as in the two rows above, and are equal when nothing was written. |
| LeaderboardResponses.GetExamLeaderboard | handlers/exam.go:956-1105 | The same for an exam; its count and the users first listed after it was read are together at least the length of the list. |
| LeaderboardResponses.ResponseBehind | handlers/score.go:851-924 | A submission inserted and judged between the statements: nobody counted, one user listed with total 0, and a score of 80 shown. |
| LeaderboardTheorems.CountIsListLength | handlers/score.go:841-859 | COUNT(DISTINCT user_id) over the groups is the length of the un-paged list. |
| LeaderboardTheorems.ExamCount | handlers/exam.go:983-989 | The exam count is an upper bound, equal exactly when everyone with a submission on a linked question has one on an active linked question. |
| LeaderboardTheorems.ExamCountExceeds | handlers/exam.go:983-989 | A database in which two users are counted and one is listed. |
| LeaderboardTheorems.TotalsNeverFall | handlers/score.go:826-840 | For any interleaving of unguarded writes in which each row, by itself, only replaces scores -3 and -1: no user's total falls and no user leaves the list (questions, links and users fixed). |
| LeaderboardTheorems.TotalsNeverFallBetween | handlers/score.go:826-840 | The same from any moment of such a run to any later one. |
| LeaderboardTheorems.FinalScoreStays | sandbox/runHandler.go:208-217 | In such a run a score other than -3 and -1 is never replaced. |
| Rescore.SubmissionTable.ReScoreUserQuestion | handlers/score.go:395-469 | Refuses an unknown or inactive question, a moment outside its time window and a missing relation, in this order; otherwise one new row, waiting, or given up when the token cannot be read. |
| Rescore.SubmissionTable.ReScoreQuestion | handlers/score.go:590-700 | Refuses callers that are no administrators, unknown questions and questions without relations; otherwise one new row for each relation, and no other row changes. |
| Rescore.JudgingStores | sandbox/runHandler.go:83-121 | A judging run's updates leave its row with the last score and touch no other row. |
| Rescore.JudgingNeverLowers | sandbox/runHandler.go:83-218 | Any interleaving of judging runs on different rows, and of new rows, lowers nobody's total, whatever the outcomes. |
| JudgedSubmissions.OneJudge | sandbox/runHandler.go:46-61 | In the whole system no two goroutines, on one server or two, run the same job. |
| JudgedSubmissions.UpdateKeepsInv | sandbox/runHandler.go:83-218 | The row that a goroutine writes to, without looking, still holds what the goroutine itself wrote last, and that is open. |
| JudgedSubmissions.EveryRunIsOrderly | sandbox/runHandler.go:83-218 | In every run of handlers, scheduler, servers and judging goroutines every write replaces a score that is still -3 or -1. |
| JudgedSubmissions.NoTotalEverFalls | handlers/score.go:826-840 | In every such run no user's total falls from any moment to any later one, and no user leaves the list. |
| JudgedSubmissions.ListedNeverExceedsShown | handlers/score.go:869-916 | In every run of the whole back end a total listed at one moment is at most the sum of the user's scores shown at any later one. |
| JudgedSubmissions.FinalScoresStay | sandbox/runHandler.go:208-217 | In every such run a row with a final score keeps it. |
| ResetToken.RoundTrip | utils/token.go:142-166 | For every user id, timestamp and nonce: scanning the printed "%d:%d:%s" gives back all three if and only if the nonce is nonempty and free of white space. |
| ResetToken.NonceStored | utils/token.go:141-147 | A generated nonce is the stored one exactly as long as nothing else has happened to its user. |
| ResetToken.AcceptedExactly | utils/token.go:151-183 | After any run with fresh nonces a token is accepted, for its user, if and only if the user exists, it is at most 300 s old by its timestamp and no later generate or clear for that user has happened. |
| ResetToken.Lifetime | utils/token.go:168-171 | By the clock a token lives more than 299 and at most 300 seconds. |
| ResetToken.Server.GenerateResetToken | utils/token.go:140-149 | Stores the nonce of an existing user and returns the printed token. |
| ResetToken.Server.ValidateResetToken | utils/token.go:151-183 | Accepts and refuses every token generated on this server as AcceptedExactly says, and refuses what does not decrypt. |
| ResetToken.Server.ClearNonce | handlers/user.go:488-490 | Clears the nonce of an existing user. |

## Left out

- SandboxServer.Sandbox.AssignJob: the loop is followed for as many looks at the shutdown signal as answers are given, since the real loop need not end.
- SandboxServer.Sandbox.AwaitCompletion: likewise for the looks at the clock; the progress messages are not modelled.
- BoxTheorems.ShutdownExactly: needs at least one box, because with none ProcessingCount is always 0.
- SchedulerTheorems.OptimisticCounters: status reports are taken to hold non-negative numbers, which CountsInRange proves of the sender.
- SchedulerServer.SandboxScheduler.ProcessJobQueue: a pass without messages in between; passes with messages are covered by the machine's theorems. Instances are values in a table, shared by index as the program shares them by pointer.
- BoxCapacity.ExhaustedExactly: stated for an idle worker, which is where the server stands between rounds of the loop; a worker in the middle of a round first ends it.
- Pipeline.RunExecute: result texts are kept as what they contain, not as formatted strings; the exit line extracted for a crash is not modelled.
- Report.MergeJudgeResults: only the counters, names and number of suites; a message.txt that is present but unreadable as JSON is not distinguished from an empty report, and statuses are the pipeline's own constants, so letter case plays no part.
- JudgedSubmissions.NoTotalEverFalls: writes by hand or by other programs, and the deletion of rows or relations, are not among the steps.
- JudgeRun.Judge.RunShellCommand: an ignored error of an update before the last one is not modelled; such a row would keep its earlier open score.
- LeaderboardResponses.GetLeaderboard: only submissions are written between its statements, not questions, exam links or users; names, masking of private names and repository URLs are not in the entries; a page is any run of rows of the list, so ties between equal totals may fall either way.
- LeaderboardResponses.GetExamLeaderboard: the weighted score (score / 100 * point) shown beside each score is not modelled; the total does not use it.
- ResetToken.Server.ValidateResetToken: says nothing of texts this server did not generate; encryption is assumed to give back what was encrypted, and a password reset that saves a whole user row while a new token is generated is not modelled.
- The select between a filled channel and a due timer, and every other choice of the Go scheduler, is arbitrary; nothing is said about probabilities or about fairness between goroutines.
- Jobs on a stream are delivered once, to some server, or not at all; a server that is restarted, and the job responses, are not modelled.
- The branch that skips `isolate --init` on a hand-off, `Cleanup`, and everything `isolate` does are not modelled.
- Floating-point error and int32 overflow: scores are real numbers with the two-decimal rounding written out, counters are unbounded integers.
- `extractScore`, whose result does not reach the stored score, and the stripping of box paths from failure texts.
- HTTP routes, JWT, OAuth, mail, the Gitea client, exam and question editing: plumbing around the parts above.
