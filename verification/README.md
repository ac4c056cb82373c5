# Verified models of the profiling engine's protocols and queries

Dafny models of the parts of the engine and its command line that are hard to get right:
protocols whose steps interleave, file operations that can fail anywhere, text processors that
see a stream in pieces, and queries that turn samples into charts. Each model follows the
branches and constants of the code it cites.

| module | models |
|---|---|
| `Tether`, `TetherSafety`, `TetherShutdown`, `TetherOutcomes` | the heartbeat between engine and agent: pulse loop, ACK loop, receiver, timer and disconnect handler as a step relation over a clock |
| `Asct`, `AsctTrackers`, `AsctSignals`, `AsctOutcomes` | the ASCT integration: tracked processes against any number of stop and cancel callbacks |
| `Jvm`, `JvmSafety`, `JvmOutcomes` | the JVM integration: two processes, their start, race and clean-up against the callbacks |
| `Collector`, `CollectorSafety`, `CollectorRuns`, `CollectorOutcomes`, `Sampling` | the system utilization collector: one shared stop attempt, and when its output may be used |
| `Commands` | the recipe command manager: two receivers, a channel of one place, buffering and fan-out |
| `RemoveAll`, `ReceiveFile`, `Faults` | recursive deletion and atomic file receive over a modelled disk with a fault possible at every operation |
| `Lines`, `AnalysisLog`, `WorkloadLog`, `FinishedDetector` | line splitters and a marker detector over chunked streams |
| `XmlEntities`, `ExecutablePaths` | entity decoding (section 4.6 of XML 1.0) and the image list |
| `Residence`, `ResidenceForms` | residence-time histograms, by range join and by floor arithmetic |
| `Heatmap`, `Timeline` | event binning by time and expansion of compressed intervals |
| `Wrappers`, `Sequences` | optional values and facts about sequences |

Code that changes state step by step appears as classes and methods with loops, each proved
equal to a function on values; the properties are lemmas about those functions over every run.
In the concurrent models a step is the code between two points where others can run; each of
their classes does any step with `Perform`, and a `Replay` puts an object through any list of
steps and carries the main results over to it. What an awaited call, a process, a clock, the
network or the user does is chosen freely by a label of the run, and a history (logs, states
gone through, commands handled) is part of the state where a property speaks of it. Schedules
of faults decide which operations fail.

## What the proofs found

- JVM clean-up: `jitdump-jvm.js:428-436` logs `handle.pid()` when ending the workload fails. If
  the workload's exit was confirmed while its kill was under way and the kill then failed, the
  handle is already cleared, the log line itself fails, and the agent is neither waited for nor
  signalled. As long as no kill and no wait for a process fails, no run leaves a process behind
  (`JvmSafety.SmoothRunsLeaveNothing`); each of the two can be the only one that fails, and one
  is left (`JvmSafety.SkippedAgentIsReachable`, `JvmSafety.AbandonedWaitIsReachable`).
  `JvmSafety.NothingLeftUnsignalled` names the two branches.
- Collector: a stop that lands while the collector is being started finds no handle and
  interrupts nothing; the run then waits for a collector that nobody stops
  (`CollectorSafety.EarlyStopIsLost`). Over whole runs, a running collector has been sent nothing
  in spite of a request exactly if every request came before its handle was registered
  (`CollectorRuns.RequestsAreLostExactly`). A request that lands before `sysutil-timeline.js:548`
  sets `userStopped` back to false leaves no trace at all; the model starts behind that line.
- Sampling: the zero duration passes the window check as unlimited. The eligible count then
  refuses it, unless interval times minimum is at most 1e-9 (`Sampling.ZeroDurationRefused`);
  at the collector's own intervals it is always refused. Just below the minimum duration the two
  tolerances disagree.
- Linear histograms: the query builder also accepts a clamp that is not a bucket start, and would
  then lose time (`ResidenceForms.LinearConservesExactlyOnGrid`). All present callers pass bucket
  starts (`system_utilization.js:853-854`, `:874`, `:1721`).
- Rows with equal timestamps: totals are stable. Their distribution over buckets is independent of
  the order if and only if rows that share a timestamp before the last share a bucket
  (`Residence.TieOrderMattersExactly`).
- Image list: the stored record has no build id, so a later path with the same name draws the
  warning just when it has a build id. That is right unless both ids agree, which draws a warning,
  or only the first path has one, which draws none (`ExecutablePaths.WarningsAreRightExactly`).
- Workload log: how a stream is cut into chunks can show in the entries exactly when some line
  is at least as long as the limit or the unterminated rest is longer (`WorkloadLog.ChunksDoNotMatterExactly`).
- Heatmap: from a span of 100 milliseconds on, the last of the 101 buckets holds only what happened
  at the last timestamp.
- File receive: once the temporary file exists, the destination is safe at every moment unless the
  temporary name coincides with an absent destination's own and the complete content is not empty.

## Model

| member | source | states |
|---|---|---|
| `TetherSafety.TimeoutReportNeedsSilence` | core/apap-engine/agent/tether.go:129-202 | in every interleaving, a timeout report means that the handler was reached after as many full, consecutive ACK deadlines as are configured, during which no ACK was posted to the channel, counted from the last ACK taken or from the start |
| `TetherSafety.GivingUpNeedsSilence` | core/apap-engine/agent/tether.go:178-197 | the ACK loop gives up only if at least the configured number of misses times the ACK timeout has passed since the last ACK it took |
| `TetherSafety.SilenceIsDetected` | core/apap-engine/agent/tether.go:129-202 | when expired timers and queued messages are handled before time advances, no silence lasts longer than that, and the loop gives up at exactly that moment |
| `TetherSafety.HandlerRunsAtMostOnce` | core/apap-engine/agent/tether.go:93-102 | whichever failures race, the handler runs at most once, never without being set, and a timeout report comes with an exhausted miss count |
| `TetherSafety.ErrorSendNeverBlocks` | core/apap-engine/agent/tether.go:132-145 | whenever the receiver has an error to send, the one-place error channel has room |
| `TetherSafety.FailureCause` | core/apap-engine/agent/tether.go:113-167 | a stream failure on its way to a report, or reported, was preceded by a failed send or receive |
| `TetherSafety.StreamReportNeedsFailure` | core/apap-engine/agent/tether.go:120-123 | a stream-failure report is preceded by a failed send or receive |
| `TetherSafety.PulseLoopClosesSend` | core/apap-engine/agent/tether.go:113-119 | a pulse loop that ends without having reported a failure has closed the sending side, and only after cancellation |
| `TetherSafety.RunKeepsInv` | core/apap-engine/agent/tether.go:93-202 | the timer is armed or fired, never both, exactly while it is awaited; the miss count stays below the limit until the loop gives up; the Once, the handler and the error channel stay in step, in every reachable state |
| `TetherSafety.FloorSinceLastTake` | core/apap-engine/agent/tether.go:169-199 | the clock is never behind what the miss count implies since the last ACK taken |
| `TetherSafety.CountsSinceLastTake` | core/apap-engine/agent/tether.go:169-199 | the miss count is exactly the number of deadlines missed since the last ACK taken |
| `TetherSafety.Replay` | core/apap-engine/agent/tether.go:113-202 | a tether put through any list of steps takes exactly those that can happen when their turn comes, all of them if each can, as a run of the step relation; the handler has then been called at most once, a reported timeout has its silent window, a reported stream failure its failed send or receive, and in a prompt run the wait is within its bound |
| `TetherSafety.StepKeepsCancel` | core/apap-engine/agent/tether.go:93-202 | no step of any goroutine takes a cancellation back |
| `TetherShutdown.ShutdownTerminates` | core/apap-engine/agent/tether.go:113-202 | after cancellation with a failing stream, any run has a bounded number of non-idle steps, and when they are used up all goroutines have returned |
| `TetherShutdown.ShutdownProgress` | core/apap-engine/agent/tether.go:113-202 | until then some goroutine can always move without waiting for the timer, a tick or the other side: there is no deadlock |
| `TetherShutdown.StepSpendsBudget` | core/apap-engine/agent/tether.go:113-202 | each such step lowers one measure of queued ACKs, misses left and program positions, although an ACK forgives all misses |
| `TetherOutcomes.LoopsEndCancelled` | core/apap-engine/agent/tether.go:113-197 | in every reachable state, a pulse loop or ACK loop that has returned leaves a cancelled context: neither ends silently |
| `TetherOutcomes.CancelledExactly` | core/apap-engine/agent/tether.go:93-107 | the context is cancelled if and only if the tether was closed from outside or a disconnect has finished, and after a disconnect a handler that is set has been called exactly once |
| `TetherOutcomes.FailureIsFollowedUp` | core/apap-engine/agent/tether.go:120-168 | from a failed send or receive on, in every interleaving, some goroutine carries that failure towards the disconnect until the context is cancelled |
| `TetherOutcomes.DisconnectMovesOn` | core/apap-engine/agent/tether.go:93-168 | and until then some goroutine can move it on without waiting for the clock, a tick or the other side |
| `TetherOutcomes.FailureEndsInDisconnect` | core/apap-engine/agent/tether.go:93-168 | where nothing can move but the clock, the caller or the other side, a run with a failed send or receive has cancelled its context |
| `TetherOutcomes.ReceiveReportNeedsOpenContext` | core/apap-engine/agent/tether.go:163-168 | the ACK loop reports a receive error only if it found the context open: none is reported behind a cancellation |
| `TetherOutcomes.ReceiverEndsForFailure` | core/apap-engine/agent/tether.go:132-145 | the receiver ends only for a failed receive |
| `TetherOutcomes.NothingIsSkipped` | core/apap-engine/agent/tether.go:113-151 | every tick taken is answered by one send, and every ACK received is posted once, but for the one under way |
| `Tether.AgentTether.Perform` | core/apap-engine/agent/tether.go:111-202 | any step of the clock, the caller or a goroutine, done on the fields, is that of the step relation |
| `Tether.AgentTether.HandleDeadline` | core/apap-engine/agent/tether.go:178-200 | the deadline branch: the re-check for a queued ACK, the miss count and the limit |
| `Tether.AgentTether.HandleAck` | core/apap-engine/agent/tether.go:169-170 | the ACK branch takes the ACK and resets the count; the timer comes next |
| `Tether.AgentTether.StopAndDrainTimer` | core/apap-engine/agent/tether.go:171-176 | an armed timer is stopped; of one that was not, a fired token is taken |
| `Tether.AgentTether.RearmTimer` | core/apap-engine/agent/tether.go:177-199 | a new full deadline |
| `Tether.AgentTether.HandleReceiveError` | core/apap-engine/agent/tether.go:163-168 | the only branch that looks at the context again before it reports |
| `Tether.AgentTether.EnterDisconnect` | core/apap-engine/agent/tether.go:95-98 | who comes first runs the handler |
| `Tether.AgentTether.LeaveDisconnect` | core/apap-engine/agent/tether.go:100-101 | the context is cancelled behind the handler |
| `Tether.AgentTether.FinishPulse` | core/apap-engine/agent/tether.go:120-121 | a pulse was sent and the loop waits again, or sending it failed |
| `Tether.AgentTether.ReportPulseFailure` | core/apap-engine/agent/tether.go:121-123 | a failed pulse is reported |
| `Tether.AgentTether.ReturnFromPulseHandler` | core/apap-engine/agent/tether.go:122-123 | the pulse loop ends behind its report |
| `Tether.AgentTether.PostReceivedAck` | core/apap-engine/agent/tether.go:147-151 | bursts of ACKs coalesce into one |
| `Tether.AgentTether.ReportFromAckLoop` | core/apap-engine/agent/tether.go:167-196 | a receive failure or timeout is reported |
| `Tether.AgentTether.ReturnFromAckHandler` | core/apap-engine/agent/tether.go:155-197 | the ACK loop ends behind its report and stops the timer |
| `Tether.AgentTether.ReturnFromAckLoop` | core/apap-engine/agent/tether.go:155-162 | the ACK loop returns and its deferred call stops the timer |
| `Tether.AgentTether.constructor` | core/apap-engine/agent/tether.go:93-156 | the state behind a successful start |
| `AsctTrackers.TrackersEndExactlyOnce` | core/apap-cli/tool-integrations/asct.js:608-711 | with any number of stop and cancel callbacks, no progress tracker is started twice or ended before its start, and once the run has settled each started one has been ended exactly once and no slot refers to a process |
| `AsctTrackers.NormalReturnRanEveryStage` | core/apap-cli/tool-integrations/asct.js:1032-1306 | a normal return means that exactly the stages of the chosen path have run, each tracker ended once |
| `AsctTrackers.SuccessEndsSameTracker` | core/apap-cli/tool-integrations/asct.js:681-703 | ending the tracker on success or in the finally block comes to the same |
| `AsctTrackers.StepKeepsInv` | core/apap-cli/tool-integrations/asct.js:361-497 | the active slot, the stage slots, the captured processes and the trackers stay aligned over every step |
| `AsctSignals.KillOnlyAfterInterrupt` | core/apap-cli/tool-integrations/asct.js:412-497 | a kill is only ever sent after an interrupt attempt by the same activation |
| `AsctSignals.PendingRequestReachesProcess` | core/apap-cli/tool-integrations/asct.js:644-676 | a process launched while a request is pending is interrupted before it is waited on |
| `AsctSignals.NormalReturnMeansNoEarlierRequest` | core/apap-cli/tool-integrations/asct.js:505-603 | the run never returns normally if a request came before its last check |
| `AsctSignals.ReachableSignals` | core/apap-cli/tool-integrations/asct.js:412-497 | what the log of every interleaving keeps: kills follow interrupts, checks precede requests |
| `AsctOutcomes.NormalReturnExactly` | core/apap-cli/tool-integrations/asct.js:505-1306 | a run that has settled returned normally if and only if every awaited call succeeded, every process exited with code zero, and no request came before its last check; every other settled run has thrown |
| `AsctOutcomes.ReturnedExactly` | core/apap-cli/tool-integrations/asct.js:1290-1305 | the return is on the log exactly when the run has returned normally |
| `AsctOutcomes.RunSettles` | core/apap-cli/tool-integrations/asct.js:1032-1306 | however the callbacks fall, the run takes a bounded number of steps, and where nothing can move without a new request it has settled |
| `AsctOutcomes.RequestsReachProcess` | core/apap-cli/tool-integrations/asct.js:412-711 | at every moment, a process that the run waits for has been interrupted if a request has come, before its launch or since |
| `AsctOutcomes.KillsExactlyWhenRefused` | core/apap-cli/tool-integrations/asct.js:412-483 | a callback kills its process if and only if the process refused its interrupt: the interrupt failed, the grace period ran out or the wait failed; when it is done it has killed the process or seen it exit |
| `AsctOutcomes.CallbackEndsExactly` | core/apap-cli/tool-integrations/asct.js:418-483 | a callback throws if and only if the kill of its catch block failed; ending otherwise it has seen the process exit or has waited for it behind a kill |
| `AsctOutcomes.CallbacksClearSlots` | core/apap-cli/tool-integrations/asct.js:484-497 | no slot refers to a process that a callback is done with |
| `AsctSignals.Replay` | core/apap-cli/tool-integrations/asct.js:412-711 | an integration put through any list of steps takes exactly those that can happen when their turn comes, all of them if each can; its trackers balance, kills follow interrupts, launched processes with a pending request are interrupted before they are waited on, and a normal return has no request before its last check |
| `Asct.AsctTool.Perform` | core/apap-cli/tool-integrations/asct.js:361-711 | any step of the run, of a callback or of an activation, done on the slots, is that of the step relation |
| `Asct.AsctTool.Register` | core/apap-cli/tool-integrations/asct.js:361-366 | the slot names the launched process and its tracker |
| `Asct.AsctTool.Clear` | core/apap-cli/tool-integrations/asct.js:375-384 | the slot is cleared only for its own handle |
| `Asct.AsctTool.EndTracked` | core/apap-cli/tool-integrations/asct.js:394-402 | the tracker is ended only while it is the active one |
| `Asct.AsctTool.StopActive` | core/apap-cli/tool-integrations/asct.js:412-457 | what an activation captures before its first await |
| `Asct.AsctTool.LeaveStop` | core/apap-cli/tool-integrations/asct.js:484-497 | the finally block of an activation |
| `Asct.AsctTool.OnRequest` | core/apap-cli/tool-integrations/asct.js:1313-1330 | a callback records its request and starts an activation |
| `Asct.AsctTool.LaunchResolved` | core/apap-cli/tool-integrations/asct.js:644-652 | a launch registers the process and stops it if a request is pending |
| `Asct.AsctTool.LeaveTracked` | core/apap-cli/tool-integrations/asct.js:696-710 | the finally block of a tracked process |
| `Asct.AsctTool.NextOp` | core/apap-cli/tool-integrations/asct.js:1032-1306 | the run up to its next await: a check, an awaited call, a tracked process or the return |
| `Asct.AsctTool.EndStage` | core/apap-cli/tool-integrations/asct.js:1255-1306 | a stage returns or throws to the run, the benchmark stage through the repair of its output's access |
| `Asct.AsctTool.WaitSettled` | core/apap-cli/tool-integrations/asct.js:676-711 | what follows the process wait, by exit code and pending request |
| `Asct.AsctTool.constructor` | core/apap-cli/tool-integrations/asct.js:1032-1038 | the metadata at the start of a run |
| `JvmSafety.NothingLeftUnsignalled` | core/apap-cli/tool-integrations/jitdump-jvm.js:421-459 | when the run settles, every process it started has a confirmed exit or was sent a kill, if and only if the settling step takes neither of two branches: one where the log line for a failed clean-up reads a handle that is already cleared, and one where a cancellation still has its kill ahead of it |
| `JvmSafety.SmoothRunsLeaveNothing` | core/apap-cli/tool-integrations/jitdump-jvm.js:421-459 | over every run in which no kill and no wait for a process fails, every process it started has a confirmed exit or was sent a kill when it settles, however the callbacks fall |
| `JvmSafety.SkippingNeedsFailedKill` | core/apap-cli/tool-integrations/jitdump-jvm.js:428-437 | the first branch needs a kill that fails although the exit of its process is confirmed |
| `JvmSafety.SkippedAgentIsReachable` | core/apap-cli/tool-integrations/jitdump-jvm.js:428-447 | the first branch is reachable, without any failed wait: the agent is left running and unsignalled with no callback pending |
| `JvmSafety.AbandonedWaitIsReachable` | core/apap-cli/tool-integrations/jitdump-jvm.js:423-426 | the second branch is reachable, without any failed kill |
| `JvmSafety.PendingCancelKillsWorkload` | core/apap-cli/tool-integrations/jitdump-jvm.js:578-590 | in the second branch the callback goes on to attempt the kill, however its first kill ends |
| `JvmSafety.CancelledCleanupWaits` | core/apap-cli/tool-integrations/jitdump-jvm.js:421-426 | a run whose clean-up begins cancelled settles only after the exit promises of all processes it started |
| `JvmSafety.TrackerEndsExactlyOnce` | core/apap-cli/tool-integrations/jitdump-jvm.js:269-458 | the collection tracker is started before any process and ended exactly once |
| `JvmSafety.NormalReturnHasReason` | core/apap-cli/tool-integrations/jitdump-jvm.js:375-419 | without stop, cancellation or timeout a normal return needs a workload that exited with code zero |
| `JvmOutcomes.FailsExactly` | core/apap-cli/tool-integrations/jitdump-jvm.js:248-459 | a run fails if and only if a deployment, a start or an early kill failed, the race was decided by a failed wait, unasked by the agent or unasked by a workload with a code other than zero, or the log line of the clean-up failed; in every other case it does not |
| `JvmOutcomes.RunSettles` | core/apap-cli/tool-integrations/jitdump-jvm.js:248-459 | however the callbacks fall, the run takes at most thirteen steps, and where nothing can move without a new request it has settled |
| `JvmOutcomes.RequestEndsLaunching` | core/apap-cli/tool-integrations/jitdump-jvm.js:258-375 | nothing is prepared, no workload started and no race entered once a request is recorded |
| `JvmOutcomes.RaceHasItsRunners` | core/apap-cli/tool-integrations/jitdump-jvm.js:322-383 | the race has the agent, and the workload just when one is launched |
| `JvmOutcomes.StopEndsItsProcess` | core/apap-cli/tool-integrations/jitdump-jvm.js:561-576 | from a stop on, its callback is ending the workload, or the agent when the workload has no handle, until that process has a confirmed exit or was sent a kill |
| `JvmOutcomes.ThrownStopTurnsToAgent` | core/apap-cli/tool-integrations/jitdump-jvm.js:565-572 | if ending the workload throws, the callback goes on to end an agent that has a handle, until the agent has a confirmed exit or was sent a kill |
| `JvmOutcomes.OnlyThrownStopTurns` | core/apap-cli/tool-integrations/jitdump-jvm.js:565-572 | it turns to the agent for no other reason |
| `JvmOutcomes.KilledExactlyWhenRefusing` | core/apap-cli/tool-integrations/process-lifecycle.js:89-163 | without a cancellation a process is sent a kill if and only if it refused to end: its interrupt failed, its grace period ran out or the wait for it failed |
| `JvmSafety.StepKeepsInv` | core/apap-cli/tool-integrations/jitdump-jvm.js:248-590 | what every step of the run, of a callback or of a process keeps |
| `JvmSafety.Replay` | core/apap-cli/tool-integrations/jitdump-jvm.js:248-590 | an integration put through any list of steps takes exactly those that can happen when their turn comes, all of them if each can; its tracker ends as often as it started, and if no kill and no wait failed, no process is left unsignalled |
| `Jvm.JvmTool.Perform` | core/apap-cli/tool-integrations/jitdump-jvm.js:248-590 | any step of the run, of a callback or of a process, done on the slots, is that of the step relation |
| `Jvm.JvmTool.AgentStarted` | core/apap-cli/tool-integrations/jitdump-jvm.js:293-320 | a started agent is killed at once if a cancellation is pending |
| `Jvm.JvmTool.WorkloadStarted` | core/apap-cli/tool-integrations/jitdump-jvm.js:347-363 | likewise for the workload |
| `Jvm.JvmTool.RaceDecided` | core/apap-cli/tool-integrations/jitdump-jvm.js:375-418 | which outcomes of the race fail the run |
| `Jvm.JvmTool.Cleanup` | core/apap-cli/tool-integrations/jitdump-jvm.js:421-438 | the clean-up: wait for exits when cancelled, otherwise end what has a handle |
| `Jvm.JvmTool.CleanWorkloadStep` | core/apap-cli/tool-integrations/jitdump-jvm.js:428-437 | one step of ending the workload, with the failing log line |
| `Jvm.JvmTool.CleanAgentStep` | core/apap-cli/tool-integrations/jitdump-jvm.js:438-448 | one step of ending the agent; a failure is only logged |
| `Jvm.JvmTool.ThrowOut` | core/apap-cli/tool-integrations/jitdump-jvm.js:421-426 | an error in the run leads into its clean-up |
| `Jvm.JvmTool.EndAgentIfRunning` | core/apap-cli/tool-integrations/jitdump-jvm.js:438-448 | the agent is ended only while it has a handle |
| `Jvm.JvmTool.PublishAndEnd` | core/apap-cli/tool-integrations/jitdump-jvm.js:449-457 | the tracker is ended and the run settles |
| `Jvm.JvmTool.AttemptKill` | core/apap-cli/tool-integrations/process-lifecycle.js:150-158 | waiting for a kill is the attempt |
| `Jvm.JvmTool.ExitSettles` | core/apap-cli/tool-integrations/process-lifecycle.js:30-49 | an exit promise settles, with the exit code or with an error |
| `Jvm.JvmTool.Stop` | core/apap-cli/tool-integrations/jitdump-jvm.js:561-576 | the stop callback up to its first await |
| `Jvm.JvmTool.Cancel` | core/apap-cli/tool-integrations/jitdump-jvm.js:578-590 | the cancel callback up to its first await |
| `Jvm.JvmTool.ResumeStop` | core/apap-cli/tool-integrations/jitdump-jvm.js:561-576 | a stop callback goes on to interrupt, wait for or kill its next process |
| `Jvm.JvmTool.ResumeCancel` | core/apap-cli/tool-integrations/jitdump-jvm.js:578-590 | a cancel callback goes on from the agent to the workload, however the first kill ended |
| `Jvm.JvmTool.constructor` | core/apap-cli/tool-integrations/jitdump-jvm.js:153-162 | the metadata at the start of a run |
| `JvmSafety.OnlyExitClearsHandle` | core/apap-cli/tool-integrations/process-lifecycle.js:30-49 | a handle is cleared by a confirmed exit of its own process and by no other step; a failed wait leaves it set |
| `JvmSafety.CleaningKeepsInv` | core/apap-cli/tool-integrations/process-lifecycle.js:89-163 | every step of ending a process, from the interrupt over the grace period to the kill, keeps the invariant of the run |
| `CollectorSafety.StopIsSingleFlight` | core/apap-cli/tool-integrations/sysutil-timeline.js:208-257 | however many stop calls overlap, the stop path interrupts at most once and kills at most once, and only a collector that was interrupted before and is unfinished at the end of the grace period |
| `CollectorSafety.CallersAgree` | core/apap-cli/tool-integrations/sysutil-timeline.js:219-256 | all callers that share the attempt get the same answer, true exactly when it killed the collector |
| `CollectorOutcomes.StopPathEndsCollector` | core/apap-cli/tool-integrations/sysutil-timeline.js:219-257 | on every interleaving, a stop attempt that is over, and the end of its grace period, leave a collector that has ended or was sent a kill; a caller told that no kill was needed finds the collector ended |
| `CollectorOutcomes.KillIsAwaited` | core/apap-cli/tool-integrations/sysutil-timeline.js:238-254 | an attempt that killed is over only when the collector has ended or the kill failed |
| `CollectorSafety.OutputIsBacked` | core/apap-cli/tool-integrations/sysutil-timeline.js:623-736 | the CSV is emitted only by a run whose collector ended without a standing error; when the run has concluded on its samples, only with at least two complete rows in a window that holds two samples |
| `CollectorRuns.SelfEndedConcludes` | core/apap-cli/tool-integrations/sysutil-timeline.js:623-717 | a run that comes to its output has gone through the clean-up, about the duration its loop was left with, if and only if a launched workload's loop was left with the collector running and without a request or a timeout |
| `CollectorRuns.OutlivedLoopConcludes` | core/apap-cli/tool-integrations/sysutil-timeline.js:676-701 | a run that launched a workload and came to its output, never stopped, cancelled or timed out, has concluded on its samples if and only if the collector outlived the loop |
| `CollectorRuns.OutputNeedsSamples` | core/apap-cli/tool-integrations/sysutil-timeline.js:623-736 | after such a loop an output means that at least two complete rows were counted and that the workload's duration holds two samples |
| `CollectorOutcomes.OutputExactly` | core/apap-cli/tool-integrations/sysutil-timeline.js:623-736 | a run that is over has come to its output if and only if its workload was launched, the workload was healthy or its failure excused, and no error stands |
| `CollectorOutcomes.ErrorStandsExactly` | core/apap-cli/tool-integrations/sysutil-timeline.js:564-736 | before the clean-up concludes an error stands if and only if the collector could not be started or ended with one; afterwards if and only if the samples were not acceptable or the collector has ended with an error since |
| `CollectorOutcomes.CleanUpStopsCollector` | core/apap-cli/tool-integrations/sysutil-timeline.js:273-302 | the clean-up interrupts a collector that has not ended, and concludes only about one that has ended or was sent a kill, as its conclusion tells |
| `CollectorOutcomes.LastCountDecides` | core/apap-cli/tool-integrations/sysutil-timeline.js:280-302 | samples are found too few only by a count made behind the stop |
| `CollectorOutcomes.RecountNeedsShortCount` | core/apap-cli/tool-integrations/sysutil-timeline.js:293-302 | rows are counted again only if the first count fell short |
| `CollectorOutcomes.TimedOutExactly` | core/apap-cli/tool-integrations/sysutil-timeline.js:634-657 | a run counts as timed out if and only if a round of polling found the deadline passed while the workload was running and nobody had asked for an end |
| `CollectorOutcomes.PollsOnExactly` | core/apap-cli/tool-integrations/sysutil-timeline.js:628-674 | another round follows if and only if the workload and the collector are running, nobody asked for an end and the deadline has not passed |
| `CollectorOutcomes.StoppedExactly` | core/apap-cli/tool-integrations/sysutil-timeline.js:740-763 | the stop flag is set if and only if a stop or cancel callback came |
| `CollectorOutcomes.WaitIsOver` | core/apap-cli/tool-integrations/sysutil-timeline.js:720-736 | once the collector has ended, a waiting run is over with its next step, with the output if no error stands and by throwing it if one does |
| `CollectorOutcomes.EmittedExactly` | core/apap-cli/tool-integrations/sysutil-timeline.js:727-736 | the CSV is emitted exactly by a run that returns normally |
| `CollectorSafety.ConclusionIsExact` | core/apap-cli/tool-integrations/sysutil-timeline.js:273-321 | the clean-up after a workload finds no error if and only if the samples suffice and the collector did not fail on its own |
| `CollectorSafety.ZeroDurationIsNotEnough` | core/apap-cli/tool-integrations/sysutil-timeline.js:273-321 | behind a workload that took no time the clean-up always finds an error, at any of the collector's intervals |
| `CollectorSafety.EarlyStopIsLost` | core/apap-cli/tool-integrations/sysutil-timeline.js:213-217 | a stop that lands while the collector is being started interrupts nothing, and the run waits on, for any number of rounds |
| `CollectorSafety.StopReachesCollector` | core/apap-cli/tool-integrations/sysutil-timeline.js:213-231 | behind a stop callback the collector has been interrupted if and only if it was before, or its handle is registered and it has not ended |
| `CollectorRuns.RequestsAreLostExactly` | core/apap-cli/tool-integrations/sysutil-timeline.js:208-763 | in every run, a collector that is running although an end was requested has been sent no interrupt and no kill if and only if all stop and cancel callbacks came before its handle was registered |
| `CollectorSafety.ReachableStop` | core/apap-cli/tool-integrations/sysutil-timeline.js:208-257 | the log of every interleaving follows the stop protocol |
| `CollectorSafety.Replay` | core/apap-cli/tool-integrations/sysutil-timeline.js:208-763 | a collector put through any list of steps, passing over those that cannot happen, reaches the state of the step relation; its log follows the stop protocol and an output is backed |
| `Collector.CollectorTool.Perform` | core/apap-cli/tool-integrations/sysutil-timeline.js:208-763 | any step of the run, of the stop attempt, of a callback or of the collector, done on the slots, is that of the step relation |
| `Collector.CollectorTool.StopCollector` | core/apap-cli/tool-integrations/sysutil-timeline.js:213-233 | the attempt is started, joined or refused |
| `Collector.CollectorTool.GraceDecided` | core/apap-cli/tool-integrations/sysutil-timeline.js:235-247 | kill or leave, decided by the collector being unfinished |
| `Collector.CollectorTool.ContinueStop` | core/apap-cli/tool-integrations/sysutil-timeline.js:231-256 | the stop attempt goes on behind the interrupt, the grace period and the kill |
| `Collector.CollectorTool.Stop` | core/apap-cli/tool-integrations/sysutil-timeline.js:740-748 | the stop callback |
| `Collector.CollectorTool.Cancel` | core/apap-cli/tool-integrations/sysutil-timeline.js:750-763 | the cancel callback kills whenever there is a handle |
| `Collector.CollectorTool.CollectorStarted` | core/apap-cli/tool-integrations/sysutil-timeline.js:564-586 | a start that failed counts as a finished collector with an error |
| `Collector.CollectorTool.Ended` | core/apap-cli/tool-integrations/sysutil-timeline.js:589-619 | the collector ends, with an error unless it exited with zero |
| `Collector.CollectorTool.PollWorkload` | core/apap-cli/tool-integrations/sysutil-timeline.js:628-674 | one round of the polling loop, in the order of its checks |
| `Collector.CollectorTool.LeaveLoop` | core/apap-cli/tool-integrations/sysutil-timeline.js:676-701 | when the collector outlived the workload |
| `Collector.CollectorTool.Inspected` | core/apap-cli/tool-integrations/sysutil-timeline.js:280-292 | rows are counted before the collector is stopped |
| `Collector.CollectorTool.Stopped` | core/apap-cli/tool-integrations/sysutil-timeline.js:293-302 | rows are counted again unless there were enough |
| `Collector.CollectorTool.Finalize` | core/apap-cli/tool-integrations/sysutil-timeline.js:303-321 | the error the clean-up comes to |
| `Collector.CollectorTool.AssertHealthy` | core/apap-cli/tool-integrations/sysutil-timeline.js:702-717 | a workload failure that is not excused ends the run |
| `Collector.CollectorTool.WaitForEnd` | core/apap-cli/tool-integrations/sysutil-timeline.js:720-736 | the final wait, the error, the output |
| `Collector.CollectorTool.constructor` | core/apap-cli/tool-integrations/sysutil-timeline.js:547-562 | the metadata at the start of a run |
| `Sampling.Accepted` | core/apap-cli/tool-integrations/sampling.js:105-131 | a sampled collection is accepted if and only if no failure of the collector itself stands, enough rows were counted and the window holds enough |
| `Sampling.WhichError` | core/apap-cli/tool-integrations/sampling.js:105-131 | which error the resolution comes to: a failure of the collector itself outranks everything, missing samples come next, and a failed inspection counts only if nothing else is wrong |
| `Sampling.ZeroDurationRefused` | core/apap-cli/tool-integrations/sampling.js:56-131 | the zero duration, which passes the window check, is refused in the end if and only if a failure of the collector itself stands, the rows fall short, or the minimum duration exceeds the tolerance of 1e-9 |
| `Sampling.EnoughSlots` | core/apap-cli/tool-integrations/sampling.js:82-88 | enough eligible samples means enough rows and enough scheduled slots |
| `Sampling.WindowCheckIsLooser` | core/apap-cli/tool-integrations/sampling.js:56-69 | the window check never refuses a window that holds enough slots |
| `Sampling.LongEnough` | core/apap-cli/tool-integrations/sampling.js:16-18 | a window at least as long as the minimum duration holds enough slots |
| `Sampling.ToleranceGap` | core/apap-cli/tool-integrations/sampling.js:65-88 | a window just below the minimum passes the window check with one slot too few |
| `Residence.ExactlyOneBucket` | core/apap-cli/recipes/system_utilization.js:584-598 | a value at or above the first edge is in exactly one bucket, any other in none |
| `Residence.EdgesConserveTime` | core/apap-cli/recipes/system_utilization.js:556-607 | the buckets sum to the time of all samples at or above the first edge |
| `Residence.TotalTime` | core/apap-cli/recipes/system_utilization.js:575-584 | the time of all samples is the span plus the last gap once more, and zero for one sample |
| `Residence.TotalIgnoresTieOrder` | core/apap-cli/recipes/system_utilization.js:578-581 | the total does not depend on how rows with equal timestamps are ordered |
| `Residence.TieOrderMattersExactly` | core/apap-cli/recipes/system_utilization.js:556-607 | all time-ordered rearrangements of the rows give the same distribution over buckets if and only if any two rows that share a timestamp before the last one lie in the same bucket, or both in none |
| `Residence.TieOrderMovesTime` | core/apap-cli/recipes/system_utilization.js:578-581 | an instance: of two rows with one timestamp, whichever comes last receives the whole gap |
| `ResidenceForms.LinearIsEdgeForm` | core/apap-cli/recipes/system_utilization.js:317-333 | floor-and-clamp binning up to a multiple of the width is the range join on the same starts with both ends open |
| `ResidenceForms.LinearIsZeroEdgeForm` | core/apap-cli/recipes/system_utilization.js:317-333 | for non-negative values, the range join with edges from zero |
| `ResidenceForms.LinearConservesTime` | core/apap-cli/recipes/system_utilization.js:252-336 | the linear histogram keeps the time of every sample |
| `ResidenceForms.LinearConservesExactlyOnGrid` | core/apap-cli/recipes/system_utilization.js:302-322 | a clamp between two bucket starts keeps all time of all samples if and only if it is a bucket start |
| `ResidenceForms.UnalignedBoundLosesTime` | core/apap-cli/recipes/system_utilization.js:302-322 | with any other clamp the time of a sample above it is in no bucket |
| `ResidenceForms.KeyMeansBucket` | core/apap-cli/recipes/system_utilization.js:319-322 | a group key collects exactly the values of one half-open bucket |
| `ResidenceForms.StaticEdgesProper` | core/apap-cli/recipes/system_utilization.js:439-446 | static edges, the first possibly NULL, are proper if and only if each steps up from the one before it |
| `ResidenceForms.CpuRelativeHistogramsConserve` | core/apap-cli/recipes/system_utilization.js:459-478 | load and run-queue histograms conserve time for every core count |
| `ResidenceForms.CpuRelativeMeans` | core/apap-cli/recipes/system_utilization.js:459-478 | a load is in a bucket if and only if the load per core lies between the multipliers of the bucket |
| `ResidenceForms.HotStartEdgesProper` | core/apap-cli/recipes/system_utilization.js:513-527 | from a threshold of eight on, rounding up keeps the edges strictly increasing, with the first bucket open below or not |
| `ResidenceForms.WholeCountsStay` | core/apap-cli/recipes/system_utilization.js:505-527 | rounding the edges up moves no whole count: an integer is in a rounded bucket if and only if it lies between the multiples of the threshold |
| `ResidenceForms.ThresholdGrows` | core/apap-cli/recipes/system_utilization.js:912-923 | the threshold is at least the scaled floor and grows with scale and core count |
| `ResidenceForms.ThresholdReached` | core/apap-cli/recipes/system_utilization.js:890-937 | a count reaches the threshold if and only if it reaches the floor and the allowance, which go from their minima to their maxima with the scale |
| `ResidenceForms.TotalCountHistogramsConserve` | core/apap-cli/recipes/system_utilization.js:890-937 | process and thread count histograms have strictly increasing edges and conserve time on every machine, with the first bucket open below or not |
| `AnalysisLog.DrainStream` | core/apap-cli/tool-integrations/neoprof.js:1917-1931 | for any split of the stream into chunks, file and progress calls are those of the whole stream |
| `AnalysisLog.StreamMeaning` | core/apap-cli/tool-integrations/neoprof.js:1880-1931 | the file gets exactly the lines that are no progress lines, with their terminators, and the calls are the progress lines with consecutive repeats removed |
| `AnalysisLog.CrMakesNoDifference` | core/apap-cli/tool-integrations/neoprof.js:1880-1891 | a trailing carriage return makes no difference to what a line is |
| `AnalysisLog.DedupDropsRepeats` | core/apap-cli/tool-integrations/neoprof.js:1900-1905 | no two consecutive progress calls are equal |
| `AnalysisLog.DedupKeepsChanges` | core/apap-cli/tool-integrations/neoprof.js:1900-1905 | a report that differs from the one before it is kept |
| `AnalysisLog.PlainStreamCopied` | core/apap-cli/tool-integrations/neoprof.js:1886-1891 | a stream without progress lines is copied unchanged |
| `AnalysisLog.Drain.ProcessLine` | core/apap-cli/tool-integrations/neoprof.js:1880-1915 | one line: appended, reported or dropped as a repeat |
| `AnalysisLog.Drain.Feed` | core/apap-cli/tool-integrations/neoprof.js:1918-1927 | one chunk |
| `AnalysisLog.Drain.Finish` | core/apap-cli/tool-integrations/neoprof.js:1929-1931 | the unterminated rest |
| `AnalysisLog.Drain.constructor` | core/apap-cli/tool-integrations/neoprof.js:1876-1878 | an empty drain |
| `FinishedDetector.Detect` | core/apap-cli/tool-integrations/neoprof.js:1325-1345 | over any sequence of chunks, the notification comes at most once, with the first chunk after which the whole stream contains the marker |
| `FinishedDetector.Detector.OnChunk` | core/apap-cli/tool-integrations/neoprof.js:1329-1344 | the retained text is shorter than the marker and decides like the whole stream |
| `FinishedDetector.Detector.constructor` | core/apap-cli/tool-integrations/neoprof.js:1326-1327 | nothing seen yet |
| `FinishedDetector.SuffixDecides` | core/apap-cli/tool-integrations/neoprof.js:1334-1338 | a suffix one shorter than the marker is enough to find a marker split across chunks |
| `XmlEntities.DecodeIsOnePass` | core/apap-cli/tool-integrations/neoprof.js:2619-2624 | the five replacements, ampersand last, are a single left-to-right decode of the predefined entities, on every string |
| `XmlEntities.DecodeInvertsEscape` | core/apap-cli/tool-integrations/neoprof.js:2619-2624 | they invert standard escaping, for every string |
| `ExecutablePaths.ParseExecutablePaths` | core/apap-cli/tool-integrations/neoprof.js:2604-2643 | the images of the absolute paths in order of their names' first occurrence, and the positions of the warnings: every later path of a name that carries a build id |
| `ExecutablePaths.NameFollowsLastSlash` | core/apap-cli/tool-integrations/neoprof.js:2625 | the file name is what follows the last slash, or all of a path without one |
| `ExecutablePaths.ImageOfEscaped` | core/apap-cli/tool-integrations/neoprof.js:2619-2642 | the image of a path that stands escaped in the file is that of the path itself |
| `ExecutablePaths.DistinctDestinations` | core/apap-cli/tool-integrations/neoprof.js:2636-2642 | all destinations differ |
| `ExecutablePaths.FirstPathWins` | core/apap-cli/tool-integrations/neoprof.js:2626-2635 | of several paths with one name, the first is kept |
| `ExecutablePaths.WarningIsRight` | core/apap-cli/tool-integrations/neoprof.js:2611-2635 | whether a later path is warned about agrees with whether its build id differs from the first path's, if and only if it has an id just when it differs; it fails when both ids agree and when only the first path has one |
| `ExecutablePaths.WarningsAreRightExactly` | core/apap-cli/tool-integrations/neoprof.js:2611-2635 | the warnings of a whole list are its build-id conflicts if and only if that holds of every later path |
| `ExecutablePaths.AgreeingIdsAreWarnedAbout` | core/apap-cli/tool-integrations/neoprof.js:2626-2634 | one path listed twice with one build id is warned about |
| `ExecutablePaths.MissingIdIsPassedOver` | core/apap-cli/tool-integrations/neoprof.js:2626-2634 | one path listed with a build id and then without one is not |
| `WorkloadLog.DrainConserves` | core/apap-cli/tool-integrations/workload.js:245-261 | between chunks the buffer is newline-free and below the limit, and with the entries it is the text received so far |
| `WorkloadLog.StreamConserved` | core/apap-cli/tool-integrations/workload.js:238-264 | the entries of a stream, with what was removed behind them, are that stream |
| `WorkloadLog.MessagesAreClean` | core/apap-cli/tool-integrations/workload.js:222-264 | the messages of a stream, however it is cut, hold no newline, and none ends in the carriage return of its line |
| `WorkloadLog.CutsAreInvisibleExactly` | core/apap-cli/tool-integrations/workload.js:238-264 | a way of cutting a stream into chunks leaves no trace in the entries if and only if no chunk before the stream's end stops inside a run that has reached the limit |
| `WorkloadLog.ChunksDoNotMatterExactly` | core/apap-cli/tool-integrations/workload.js:238-264 | all ways of cutting a text give the same entries if and only if each of its lines is shorter than the limit and its unterminated rest no longer than it |
| `WorkloadLog.SameStreamSameEntries` | core/apap-cli/tool-integrations/workload.js:240-264 | two given ways of cutting one stream give the same entries when neither stops inside such a run |
| `WorkloadLog.UncutDrain` | core/apap-cli/tool-integrations/workload.js:245-256 | without such a run the entries are the lines of the stream |
| `Lines.SplitExactly` | core/apap-cli/tool-integrations/workload.js:246-256 | the split into lines and rest is the only way to write a text as newline-free lines, each with its newline, and a newline-free rest |
| `WorkloadLog.LongRunDependsOnChunks` | core/apap-cli/tool-integrations/workload.js:257-260 | an instance: any run that reaches the limit is one entry with its newline in the same chunk, and two with the newline in the next |
| `WorkloadLog.Replay` | core/apap-cli/tool-integrations/workload.js:220-280 | of any list of events exactly those happen that can when their turn comes, all of them if each can; the file is closed if and only if a close happened, unbroken if and only if no write failed, with an entry for every completed write; a log closed without a failed write is an interleaving that has each stream's entries complete and in order, and after a failed write it is a prefix of one |
| `WorkloadLog.Step` | core/apap-cli/tool-integrations/workload.js:220-280 | one event, which happens if and only if it can: a chunk or end of a stream that has not ended, a write that is next on an unbroken chain, or the one close behind both drains and the chain |
| `WorkloadLog.CanHappenExactly` | core/apap-cli/tool-integrations/workload.js:220-280 | what can happen next, told by the events so far: a stream delivers until it has ended, the chain is written until a write failed or all is written, and the close comes once, behind both ends and the chain |
| `WorkloadLog.StepStands` | core/apap-cli/tool-integrations/workload.js:220-280 | every event keeps each stream's entries complete and in order in the chain, the file a prefix of it, and the flags true to what happened |
| `WorkloadLog.NonePassedOver` | core/apap-cli/tool-integrations/workload.js:220-280 | if every event can happen when its turn comes, all do |
| `WorkloadLog.HappeningAgain` | core/apap-cli/tool-integrations/workload.js:220-280 | what happened, given again, happens whole and leads to the same capture |
| `WorkloadLog.Capture.DrainChunk` | core/apap-cli/tool-integrations/workload.js:246-260 | the inner loops of a drain: an entry per line, and a cut at the limit |
| `WorkloadLog.Capture.OnChunk` | core/apap-cli/tool-integrations/workload.js:245-261 | a chunk of one stream leaves the other stream's standing alone |
| `WorkloadLog.Capture.OnEnd` | core/apap-cli/tool-integrations/workload.js:262-264 | the rest of a stream becomes its last entry |
| `WorkloadLog.Capture.OnWrite` | core/apap-cli/tool-integrations/workload.js:229-231 | the chain is written in order, up to the first failure |
| `WorkloadLog.Capture.OnClose` | core/apap-cli/tool-integrations/workload.js:267-274 | the file is closed behind both drains and the chain, once |
| `WorkloadLog.Capture.Enqueue` | core/apap-cli/tool-integrations/workload.js:222-232 | one more entry at the end of the chain |
| `WorkloadLog.Capture.constructor` | core/apap-cli/tool-integrations/workload.js:220-221 | an empty capture |
| `Commands.EveryCallbackIsServed` | core/apap-cli/service/cli_interrupt.go:113-140 | over every interleaving, the first callback has been given all commands handled, each later one exactly those handled after it registered, none lost, repeated or reordered |
| `Commands.SourcesKeepOrder` | core/apap-cli/service/cli_interrupt.go:202-262 | per source, the commands sent are the mapped bytes read, and a prefix of the configured list |
| `Commands.MappedCounts` | core/apap-cli/service/cli_interrupt.go:36-41 | every `s` read asks for a stop, every `c` and `q` for a cancellation, nothing else for anything |
| `Commands.EndIsFinal` | core/apap-cli/service/cli_interrupt.go:202-216 | once reading has failed nothing more is read, in any interleaving |
| `Commands.EverythingReadIsDelivered` | core/apap-cli/service/cli_interrupt.go:99-140 | left alone, the manager delivers all commands read so far in a bounded number of steps |
| `Commands.SomethingMoves` | core/apap-cli/service/cli_interrupt.go:92-111 | a full channel with two blocked senders does not deadlock |
| `Commands.InterruptsAreAnswered` | core/apap-cli/service/cli_interrupt.go:231-262 | each interrupt command answers an interrupt of its own, and the first interrupt is never lost |
| `Commands.ExhaustedMeansDefault` | core/apap-cli/service/cli_interrupt.go:238-249 | once the configured commands are used up, a further interrupt has its default effect |
| `Commands.FanoutReceived` | core/apap-cli/service/cli_interrupt.go:137-139 | a command reaches each registered callback exactly once |
| `Commands.RecipeCommandManager.RegisterCallback` | core/apap-cli/service/cli_interrupt.go:114-125 | the first callback is given what was buffered, in order |
| `Commands.RecipeCommandManager.HandleCommand` | core/apap-cli/service/cli_interrupt.go:128-140 | a command is buffered, or given to the callbacks in order of registration |
| `Commands.RecipeCommandManager.constructor` | core/apap-cli/service/cli_interrupt.go:92-97 | no callbacks, nothing buffered |
| `Commands.ReceiveStdin` | core/apap-cli/service/cli_interrupt.go:202-216 | the bytes that name a command, in order |
| `Commands.ReceiveInterrupts` | core/apap-cli/service/cli_interrupt.go:231-262 | a prefix of the configured commands as long as the signals last, and the default effect exactly when they are used up, or from the start when there are none |
| `RemoveAll.RemoveAll` | core/apap-engine/aferoutils/fs.go:16-51 | on a tree, with any operation failing: success removes exactly the node and all below it, a failure has removed only nodes strictly below it, every survivor keeps its parent, and it succeeds if and only if the node exists, is not the root and no fault struck; it terminates |
| `RemoveAll.FileSystem.Stat` | core/apap-engine/aferoutils/fs.go:18-22 | an error for a missing node |
| `RemoveAll.FileSystem.ReadDir` | core/apap-engine/aferoutils/fs.go:26-29 | the names of the children |
| `RemoveAll.FileSystem.Remove` | core/apap-engine/aferoutils/fs.go:49 | one file or one empty directory |
| `RemoveAll.WithoutAll` | core/apap-engine/aferoutils/fs.go:31-49 | with the subtrees of all children gone only the node is left |
| `RemoveAll.WithoutOneMore` | core/apap-engine/aferoutils/fs.go:31-38 | removing one more child's subtree |
| `RemoveAll.AncestorIsNode` | core/apap-engine/aferoutils/fs.go:31-38 | in a tree every ancestor of a node is a directory |
| `ReceiveFile.ReceiveFile` | core/apap-engine/agent/file_transfer.go:74-151 | with any operation failing: success if and only if the stream ends cleanly, nothing fails, the context is not cancelled at the start and the temporary name is new, and then exactly the destination has changed, to the chunks received; after a failure nothing has changed but at most a left-over temporary file; in every state on the way the destination holds its old content or the complete new one, if and only if no temporary file was created, or it has another name, or the complete content is empty; the file is closed once and its removal attempted after every failure; the error is that of the last step attempted, and without a fault that of the stream |
| `ReceiveFile.TrailIntact` | core/apap-engine/agent/file_transfer.go:85-150 | the destination holds its old content or the complete new one in every state of a trail, if and only if the temporary file has another name or the complete content is empty |
| `ReceiveFile.ClosedOnce` | core/apap-engine/agent/file_transfer.go:96-150 | the four ways in which a transfer can end behind its writes: closed once, renamed only behind its sync and its close, and its removal attempted, as the last thing, exactly if the transfer fails |
| `ReceiveFile.FirstFinalDecides` | core/apap-engine/agent/file_transfer.go:38-67 | the first answer that is a clean end, a cancellation or a failure decides how the stream ends, in this order of precedence, and everything before it is delivered |
| `ReceiveFile.SendStream` | core/apap-engine/agent/file_transfer.go:38-67 | the writer gets the delivered chunks in order; the error is the stream's own unless a write failed; a clean end counts before a cancelled context; reports cover the chunks accepted |
| `ReceiveFile.SendChunk` | core/apap-engine/agent/file_transfer.go:59-64 | an empty chunk is passed over, a report follows a successful write |
| `ReceiveFile.ReportsSum` | core/apap-engine/agent/file_transfer.go:26-34 | reported progress sums to the bytes accepted |
| `ReceiveFile.BufferedWriter.Write` | core/apap-engine/agent/file_transfer.go:115 | file and buffer together hold every byte in order, whatever the sizes of chunks and buffer |
| `ReceiveFile.BufferedWriter.Spill` | core/apap-engine/agent/file_transfer.go:115 | one round of a write that does not fit: past an empty buffer, or filling and flushing it |
| `ReceiveFile.BufferedWriter.Flush` | core/apap-engine/agent/file_transfer.go:130-132 | nothing is held back after a successful flush |
| `ReceiveFile.BufferedWriter.Direct` | core/apap-engine/agent/file_transfer.go:115 | a write that bypasses the buffer |
| `ReceiveFile.BufferedWriter.constructor` | core/apap-engine/agent/file_transfer.go:115 | an empty writer |
| `ReceiveFile.Pump` | core/apap-engine/agent/file_transfer.go:115-132 | the stream into the writer, and the last flush |
| `ReceiveFile.Gather` | core/apap-engine/agent/file_transfer.go:115-132 | request, stream and flush |
| `ReceiveFile.Install` | core/apap-engine/agent/file_transfer.go:134-146 | sync, close and rename, in this order and as far as they go |
| `ReceiveFile.Fill` | core/apap-engine/agent/file_transfer.go:115-150 | all of the transfer before the deferred function |
| `ReceiveFile.Defer` | core/apap-engine/agent/file_transfer.go:96-113 | the deferred function closes and removes unless called off, and never replaces an earlier error |
| `ReceiveFile.Transfer` | core/apap-engine/agent/file_transfer.go:96-150 | the transfer with its deferred function |
| `ReceiveFile.Open` | core/apap-engine/agent/file_transfer.go:81-93 | the transfer up to its open temporary file |
| `ReceiveFile.Disk.CreateTemp` | core/apap-engine/agent/file_transfer.go:90-93 | a new empty file |
| `ReceiveFile.Disk.Append` | core/apap-engine/agent/file_transfer.go:115 | a write reaches the file in full or in part |
| `ReceiveFile.Disk.Rename` | core/apap-engine/agent/file_transfer.go:144-146 | all or nothing |
| `ReceiveFile.Disk.Remove` | core/apap-engine/agent/file_transfer.go:102-106 | a file is removed |
| `ReceiveFile.Disk.constructor` | core/apap-engine/agent/file_transfer.go:81-93 | the files as they are before the transfer |
| `Heatmap.EventHasItsBucket` | core/apap-cli/recipes/syscall_trace_summary.js:422-450 | every event falls into exactly one bucket, and that bucket is among those listed |
| `Heatmap.BucketIsWindow` | core/apap-cli/recipes/syscall_trace_summary.js:436-450 | an event's bucket is `k` if and only if its time lies in the window from `k` to `k + 1` widths behind the start |
| `Heatmap.CellCountsWindow` | core/apap-cli/recipes/syscall_trace_summary.js:436-463 | a cell is the number of events of its syscall in its window of time |
| `Heatmap.GridFits` | core/apap-cli/recipes/syscall_trace_summary.js:376-435 | the last bucket begins within the span and ends behind it; the width is a hundredth of the span or the least width, and a second for a trace without duration |
| `Heatmap.CountsConserve` | core/apap-cli/recipes/syscall_trace_summary.js:436-463 | the dense counts of a syscall add up to its events |
| `Heatmap.RatesConserve` | core/apap-cli/recipes/syscall_trace_summary.js:464-470 | rate times bucket width, summed over the buckets, gives back the events |
| `Heatmap.BucketsAreFew` | core/apap-cli/recipes/syscall_trace_summary.js:389-435 | there are at most 101 buckets |
| `Heatmap.AllBucketsExactly` | core/apap-cli/recipes/syscall_trace_summary.js:389-435 | all 101 buckets are listed if and only if the trace spans 100 milliseconds or more |
| `Heatmap.LastBucketIsTheEnd` | core/apap-cli/recipes/syscall_trace_summary.js:389-435 | when there are 101, the last holds exactly what happened at the last timestamp |
| `Timeline.EveryBinOnce` | core/apap-cli/recipes/code_hotspots.js:476-526 | every bin from the least to the greatest covered start exactly once and in order, valued at the sum of the intervals that cover it |
| `Timeline.BinValue` | core/apap-cli/recipes/code_hotspots.js:487-506 | the value of a bin is the sum over the intervals that cover it, zero when none does |
| `Timeline.AlignedTotal` | core/apap-cli/recipes/code_hotspots.js:476-526 | for aligned intervals the total is value times covered bins, summed over the intervals |
| `Timeline.TotalIsShown` | core/apap-cli/recipes/code_hotspots.js:507-526 | for any intervals the total is that of the bins lying on the chart's own grid |
| `Timeline.SeriesSteps` | core/apap-cli/recipes/code_hotspots.js:488-496 | a generated series has every step once and in order |

## Left out

- gRPC and SSH transport, process launching, terminals, real clocks and the database engine: their answers are choices of the environment, and queries are modelled by the relations they define.
- The tether's `Start` error returns, the choice of the pulse interval and logging; firing a timer is one step that disarms it and fills its channel.
- That closing the tether silences its handler: only the receive-error branch looks at the context again, so no such property is claimed.
- ASCT: the run between two tracked processes is a list of checks and awaited calls, so path building, probing and log publication are not modelled; the exit code is an answer of the environment, and progress-line parsing is left out.
- JVM: the three awaited directory calls before the tracker starts are one await; publishing the logs does not fail; ending a process whose handle is already cleared is not modelled, since every caller checks the handle first; `reformat` is left out.
- Collector: lengths of the grace periods, the first window check before launching, inspection command output, which is a row count or nothing, and what happens before the flags of a run are set.
- Collector.CollectorTool.Stop: does not model the interrupt that the same callback sends to the workload, because the workload's completion and health are answers of the environment.
- Collector.CollectorTool.Cancel: likewise does not model the kill of the workload.
- Floating-point rounding: times, values and rates are exact reals, and `scale` is any number in [0, 1].
- Parsing of timestamps and column values in the queries; `ROUND` of the displayed time; the choice of the hundred most frequent syscalls, the heatmap's results holding for every syscall.
- Network, CPU saturation and per-core rate histograms: their bucket edges are covered by the static and CPU-relative forms, their value expressions are not modelled.
- Regular expressions: progress lines are recognised by an uninterpreted parser, path elements are given as a list of matches.
- Failing appends in the analysis log drain, and a stream whose iteration fails.
- Workload log: time stamps and JSON encoding of entries; a stream that is absent behaves like one that ends at once.
- Launching a workload: normalising its descriptor and its completion flags; the collector's run takes completion and health as answers.
- Callbacks of the command manager that block, and two managers in one process.
- Symbolic links, concurrent changes and path syntax in recursive deletion; paths are lists of names.
- ReceiveFile.BufferedWriter.Write: models the standard library's buffered writer, which is not part of the repository, so that the buffer can lag behind the file.
- `RetrieveFileToMemory`: the same stream loop into a buffer that cannot fail.
- Directories in the file receive: creating them can fail but is not recorded.
- Renderers, recipe metadata, readiness advice, command-line set-up, and the build, release and licence scripts.
- The `wperf`, `linux_perf`, `cmn_analysis`, `instruction_mix` and `syscall-trace` integrations, whose lifecycles are weaker variants of those modelled.
