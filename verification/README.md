# Verification of the scietex.logging core

This project models the asynchronous logging pipeline of `scietex.logging`, the workers that deliver
its records, and the colour arithmetic of its formatter, and proves what they promise over every
interleaving, cancellation and restart.

`dafny verify dfyconfig.toml` checks everything.

## What is modelled

**The pipeline** (`Pipeline*.dfy`, `QueueBackend.dfy`, `AsyncLoggingHandler.dfy`). `emit` on any thread
writes to a bounded ingress; a bridge task fans each record out to N bounded queues; N workers dequeue,
deliver or report, and acknowledge; `stop_logging` cancels the bridge, flushes the ingress inline, drains,
reports, cancels stragglers and clears. `Pipeline` is the step machine: one step is one thing no other
actor can interrupt, so emitter threads step between any two statements, event-loop actors only while the
loop is free. `PipelineInvariant` and `PipelineSteps` give the invariant and its preservation,
`PipelineTheorems`, `PipelineOutcomes`, `PipelineFlush`, `PipelineGather` and `PipelineIsolation` what follows. `AsyncLogging` is the handler as
an object whose methods update its fields with the loops of the source; the ghost field `trace` ties the
object to a run of the machine, so the theorems hold of it. A `schedule` parameter supplies what others do
between two of its statements. `HandlerRegistry` has the three collections a backend is registered in,
`RegisteredHandler` puts them beside the handler.

**The broker worker** (`Backoff.dfy`, `Broker*.dfy`, `AsyncBrokerHandler.dfy`): connect with capped
exponential backoff, send, reconnect after a failed send, owned and injected clients, acknowledgement in
`finally`, release of the client on every way out.

**The file and console workers** (`FileWorker*.dfy`, `FileBackend.dfy`, `FileRefinement.dfy`) with the
single-thread executor they write through: a FIFO of operations with one running, which a cancellation
takes back only if it has not begun. Opening, writing, closing and resetting are separate steps, and an
executor abandoned by a cancelled worker keeps running what it had begun. `FileWorkerWrites` has the way of
one text into its sink, `FileWorkerTeardown` has what
holds unless the worker's last await is cancelled, `FileWorkerCuts` what that cancellation breaks.

**The workers in the pipeline** (`WorkerView.dfy`, `BrokerRefinement.dfy`, `FileRefinement.dfy`,
`BrokerHang.dfy`). What the pipeline sees of a worker, and what it does to it; each concrete worker run
jointly with the pipeline machine in the place of the abstract one.

**Rotation** (`Rotation.dfy`): `_write_record` of the size-based, time-based and watched file backends,
with the file object shared between backend and stdlib rotator, and every call free to raise.

**Colour** (`Color.dfy`, `Theme.dfy`, `ThemeTextual.dfy`, `Terminal.dfy`, `Formatter.dfy`): HSL, hex text,
blending and contrast over the reals, the conversion of Textual themes, the escape-sequence printers, and
the formatter judged by a terminal that interprets its output.

## What was found

Some promises fail in a corner. Each corner is stated with its exact condition and a run that shows it.

* *Owned broker client.* The class documentation and `docs/architecture/lifecycle.md` promise that the
  client is released on normal exit and on cancellation. `handler/broker.py:274-278` resets `client` after
  awaiting `_disconnect()`; a cancellation that arrives inside that await skips the reset, whether the worker
  is ending by itself or stop cancels it a second time. `EndedWithoutClient` says the reference is dropped if
  and only if this did not happen, `TeardownCanLeaveClient` and `NextWorkerSendsOnIt` show a run, and
  `NoSendOnReleasedClient` and `FailedConnectsKeepRecords` cover all other runs; `CutTeardownReuses` shows
  that the condition is exact, `CutTwiceHappens` a run in which no connect ever returned.
* *Bounded stop.* The comment at `async_logging_handler.py:482-485` promises that stop does not hang on an
  unreachable broker. Its timeout cancels the workers, and the first gather is then settled by the first of
  them that ends, upon which the others are cancelled again. `GatherEndsExactly`: from the timeout on, stop is
  stuck if and only if a worker is in its teardown and no cancelled worker has ended. A cancelled broker worker
  awaits its final `disconnect()`, and leaves it exactly when that returns, raises or is cancelled
  (`TeardownEndsExactly`). `StopHangsOnDisconnect` puts the two together; `StopCanHang` is a run with one
  backend that hangs, `StopCanPass` one with two that does not.
* *File close.* The documentation of `_worker` and `_WriteExecutor` promises that the stream is closed and
  never written to afterwards, and that writes of one cycle do not meet those of the next.
  `backend/file.py:238-239` awaits the close in the outer `finally`; a cancellation there drops the close if it
  is still queued and skips `shutdown`, so that whatever the thread runs goes on: the close itself, or, if the
  worker had been cancelled before, its last write. Four conditions on that cancellation say which promise it
  breaks: a live write left running breaks the order of texts and cycles (`CutLiveWriteMixes`), any write left
  running outlives its worker (`CutBehindWriteOutlives`), one that has yet to open the stream leaves it open
  behind the next close (`CutOpeningReopens`), and any operation left running lets a write meet a closed handle
  (`CutBusyCloseSpoils`). `WrittenInOrder`, `CyclesInOrder`, `NoWriteOutlivesItsWorker`, `EndedWithoutStream` and
  `NoWriteAfterClose` hold of all runs without the one that breaks them; `CutWriteHappens`,
  `CutRunningCloseHappens` and `QueuedCloseIsDropped` are runs that meet them.
* *Failed rollover or reopen.* When the stdlib rotator or watcher raises after it has closed the stream,
  `backend/file.py:320` or `:483` is skipped and `_stream` stays the closed file. Every later record of the
  start cycle is then reported and lost (`FailedRolloverLosesTheCycle`, `FailedReopenLosesTheCycle`), except
  that a time-based rotator is due again and heals it. The contracts of the three `WriteRecord` methods
  state exactly which records are written.
* *Watched file gone astray.* A `stat` that raises right after the stream was opened leaves the watcher with
  the file of an earlier cycle; if the path comes to name that one again, the next text goes to the file
  opened since (`UncheckedStreamGoesAstray`).

The code and its documentation also differ in `theme_textual.py:97-105`: `_flatten` is documented as
compositing over the background, but blends from the text colour towards the background by its alpha. The
model follows the code, so a higher percentage of `auto` text gives a fainter debug colour.

## Assumptions

* Calls of `start_logging` and `stop_logging` do not overlap, and `close()` is not called inside
  `start_logging`. Registration happens between them.
* In the pipeline, only `stop_logging` cancels a worker: by the timeout of its first gather, and once more
  before the second. The theorems about a worker alone allow a cancellation at every await, any number of times.
* A cancellation of a worker is the `CancelledError` raised in it: one that an await absorbs counts as none, and a
  worker in which it was raised ends as a cancelled task.
* The event loop is open while the handler is live; a wakeup scheduled on it runs.
* Rendering a record in the broker worker does not raise (`handler/broker.py:242-249`).
* Every backend has a queue of its own.
* `asyncio` queues, events, `wait_for` and `gather`, the thread pool, and the stdlib rotators behave as
  documented; `wait_for(get())` either takes a record or leaves it in the queue.
* `stream.close()` does not raise, nor does the deletion of an archive that is too old.
* A file is not replaced from outside in the middle of one `_write_record`.

## Model

| member | source | states |
|---|---|---|
| PipelineSteps.StepKeepsInv | src/scietex/logging/async_logging_handler.py:290-522 | every step of every actor keeps the pipeline invariant |
| PipelineSteps.RunKeepsInv | src/scietex/logging/async_logging_handler.py:290-522 | so does every run, from any state that has it |
| PipelineTheorems.Conservation | src/scietex/logging/async_logging_handler.py:312-522 | each record that entered the ingress is, for every backend, in exactly one place: ingress, bridge hand, queue, worker hand, acknowledged, refused, or discarded |
| PipelineTheorems.StoppedConservation | src/scietex/logging/async_logging_handler.py:431-522 | when stop has returned, every record of the cycle is acknowledged, refused or discarded, or sits in the abandoned ingress of an emitter stop could not wait for |
| PipelineTheorems.BoundedMemory | src/scietex/logging/async_logging_handler.py:303-402 | in every reachable state, ingress and N queues of the handler's bound together hold at most (1+N) times that bound |
| PipelineOutcomes.ConfiguredBounds | src/scietex/logging/async_logging_handler.py:303-304 | over every run, restarts included, the ingress has the bound the handler was made with and each queue the bound it was registered with |
| PipelineOutcomes.MemoryIsBounded | src/scietex/logging/async_logging_handler.py:303-402 | over every run of a handler whose backends are all registered with its queue_maxsize, ingress and N queues together hold at most (1+N) times queue_maxsize |
| PipelineTheorems.FifoFanOut | src/scietex/logging/async_logging_handler.py:388-462 | a backend is offered the ingress order without gaps, across the hand-over from bridge to flush; its put history is that minus the refused; acknowledgements are a prefix, deliveries a subsequence of it |
| PipelineTheorems.OverflowPolicy | src/scietex/logging/async_logging_handler.py:396-402 | a record is refused exactly by a queue at its bound, which then stays as it is |
| PipelineOutcomes.PutDecides | src/scietex/logging/async_logging_handler.py:343-364 | in every reachable state, at every emitter's put into the present ingress: the record is dropped exactly when the ingress holds as many as its bound, which leaves everything else as it is, and is appended otherwise |
| PipelineOutcomes.GateDecides | src/scietex/logging/async_logging_handler.py:328-329 | at the gate a record is turned away exactly when the gate is closed |
| PipelineOutcomes.ReferencesDecide | src/scietex/logging/async_logging_handler.py:338-342 | behind it, exactly when ingress, loop or event was found released |
| PipelineOutcomes.CallEnters | src/scietex/logging/async_logging_handler.py:328-364 | from every reachable state with the gate open and room in the ingress, a call of emit that nobody interferes with appends its record and schedules one wakeup |
| PipelineOutcomes.StalePut | src/scietex/logging/async_logging_handler.py:338-355 | a put into the ingress of an earlier cycle changes nothing of the present one |
| PipelineIsolation.OthersDoNotMatter | src/scietex/logging/async_logging_handler.py:290-522 | two handlers that differ only in other backends give this backend the same records under schedules that agree on everything but those backends -- starts, the hand-over from bridge to flush, drains, cancellations, whether stop cancels again, clearing and registrations included; a backend that reports drain results has to be told the same ones |
| PipelineTheorems.AcknowledgeAccounting | src/scietex/logging/async_logging_handler.py:478-513 | the unfinished count is queue length plus records in hand at every moment, so task_done never underflows, and a stopped handler has every queue empty with count zero |
| PipelineTheorems.DrainSound | src/scietex/logging/async_logging_handler.py:444-478 | when a drain has completed, everything ever moved into that queue is acknowledged and stays so until the first status record; raced records sit in the ingress and the bridge is dead |
| PipelineOutcomes.DrainEnds | src/scietex/logging/backend/_base.py:148-161 | in every reachable state a running drain sees its queue joined exactly when nothing is queued or in hand; it completes only then, and may time out at any moment before it has returned |
| PipelineOutcomes.ReportedHonestly | src/scietex/logging/backend/_base.py:163-185 | in every reachable state of the report, the reporter is put one record, behind its queue unless that holds its bound; it is at INFO exactly when the drain it tells of has completed, and no other backend changes |
| PipelineOutcomes.FinishedIsEmpty | src/scietex/logging/async_logging_handler.py:308-310 | a worker that came to its end by itself has acknowledged every record ever put into its queue, in order |
| PipelineTheorems.NoLostWakeup | src/scietex/logging/async_logging_handler.py:339-364 | a non-empty ingress under a waiting bridge has the event set, a set callback pending, or an emitter between put and wake |
| PipelineTheorems.BridgeCanWake | src/scietex/logging/async_logging_handler.py:386-402 | from there at most three steps put the bridge to work |
| PipelineOutcomes.WakesAreSpent | src/scietex/logging/async_logging_handler.py:357-389 | over every run the bridge wakes up at most once for each callback, and there are at most as many callbacks as records that entered |
| PipelineTheorems.AcceptMeansReady | src/scietex/logging/async_logging_handler.py:290-310 | an open accept gate means that ingress, loop and event are in place, the bridge lives, and the handler is not closed |
| PipelineTheorems.StoppedIsFresh | src/scietex/logging/async_logging_handler.py:498-522 | a stopped handler equals one that was never started, but for the closed flag and registrations |
| PipelineTheorems.ClosedForGood | src/scietex/logging/async_logging_handler.py:524-538 | once closed, a handler stays closed and never accepts again |
| PipelineFlush.FlushIsBounded | src/scietex/logging/async_logging_handler.py:450-462 | over every interleaving, the flush and the emitters already past the gate take at most a fixed number of steps; later emitters cost nothing |
| PipelineFlush.FlushProgress | src/scietex/logging/async_logging_handler.py:450-462 | the flush is never stuck |
| PipelineOutcomes.FlushedAll | src/scietex/logging/async_logging_handler.py:450-462 | stop leaves the flush only when every record that entered the ingress since the backend was registered has been offered to it, and the gate is closed |
| AsyncLogging.AsyncLoggingHandler.Emit | src/scietex/logging/async_logging_handler.py:329-364 | emit run to its return: silently dropped exactly behind a closed gate, dropped as overflow exactly when the ingress holds as many as the bound the handler was made with, otherwise appended with one wakeup scheduled behind the put |
| AsyncLogging.AsyncLoggingHandler.MoveOne | src/scietex/logging/async_logging_handler.py:391-402 | the oldest record leaves the ingress and is offered to every backend once, while emitters run between the puts |
| AsyncLogging.AsyncLoggingHandler.BridgeRound | src/scietex/logging/async_logging_handler.py:388-402 | from wakeup to next wait, the bridge fans out all it took, in order, and leaves the ingress empty; it ends once emitters do |
| AsyncLogging.AsyncLoggingHandler.FlushIngress | src/scietex/logging/async_logging_handler.py:450-462 | stop's loop fans out everything the ingress held or still receives, in order, and ends under every schedule |
| AsyncLogging.AsyncLoggingHandler.RegisterBackend | src/scietex/logging/async_logging_handler.py:232-253 | refused exactly for a registered name, which changes nothing; otherwise appended behind the backends registered before |
| HandlerRegistry.AssignedAppends | src/scietex/logging/async_logging_handler.py:234-253 | assigning a key appends to the dictionary exactly when the key is new, as the two lists always do |
| HandlerRegistry.Registry.RegisterBackend | src/scietex/logging/async_logging_handler.py:232-253 | over every sequence of calls the dictionary of queues and the lists of worker factories and drain hooks stay one-to-one; a name that is taken changes none of them |
| HandlerRegistry.Registry.CreateTasks | src/scietex/logging/async_logging_handler.py:308-310 | the k-th task is the worker of the k-th registered backend |
| HandlerRegistry.Registry.GatherDrains | src/scietex/logging/async_logging_handler.py:471-473 | the k-th drain result comes from the hook of the k-th key of the dictionary, in registration order |
| RegisteredHandlers.RegisteredHandler.RegisterBackend | src/scietex/logging/async_logging_handler.py:232-253 | collections and pipeline take the same decision, and their k-th entries stay those of the same backend |
| RegisteredHandlers.RegisteredHandler.StartLogging | src/scietex/logging/async_logging_handler.py:290-310 | after a start every backend of the pipeline has the worker its own factory made |
| AsyncLogging.AsyncLoggingHandler.NewIngress | src/scietex/logging/async_logging_handler.py:303-304 | a start makes a fresh, empty ingress |
| AsyncLogging.AsyncLoggingHandler.OpenGates | src/scietex/logging/async_logging_handler.py:304-307 | event, bridge task, accept gate, running flag, in this order, with emitters running in between |
| AsyncLogging.AsyncLoggingHandler.StartLogging | src/scietex/logging/async_logging_handler.py:290-310 | fails exactly when closed or running, and then changes nothing; otherwise opens both gates over a new ingress of the old bound, with one worker per backend |
| AsyncLogging.AsyncLoggingHandler.StopBridge | src/scietex/logging/async_logging_handler.py:434-449 | the gate is closed and the bridge dead, with no record in its hand |
| AsyncLogging.AsyncLoggingHandler.DrainBackends | src/scietex/logging/async_logging_handler.py:471-473 | every drain hook returns, at the latest with a timeout; it reports completion exactly if its queue was fully acknowledged, and touches no queue |
| AsyncLogging.AsyncLoggingHandler.Report | src/scietex/logging/backend/_base.py:178-185 | one status record per result, in registration order, into the reporter's own queue, those that fit |
| AsyncLogging.AsyncLoggingHandler.RegisterStatusReporter | src/scietex/logging/async_logging_handler.py:255-268 | a reporter goes behind those registered before |
| QueueBackend.StatusLevel | src/scietex/logging/backend/_base.py:39-47 | a status record is at INFO exactly when the drain completed, otherwise at ERROR |
| QueueBackend.CompletedTells | src/scietex/logging/backend/_base.py:39-41 | the text of a completed drain names the backend first and says that it completed |
| QueueBackend.TimeoutTells | src/scietex/logging/backend/_base.py:42-44 | that of a timeout says so, and of which backend |
| QueueBackend.ErrorTells | src/scietex/logging/backend/_base.py:45-47 | that of an error says so, and ends with the error's own text |
| QueueBackend.StatusDistinguishes | src/scietex/logging/backend/_base.py:37-56 | equal status records come from equal outcomes, for the same label and with the same error |
| QueueBackend.LabelShows | src/scietex/logging/backend/_base.py:37-38 | the label is the display name, or the queue's name without its leading underscores, capitalised |
| QueueBackend.CapitalizedAt | src/scietex/logging/backend/_base.py:38 | capitalize raises the first letter and lowers the others |
| AsyncLogging.ReportFillsQueue | src/scietex/logging/backend/_base.py:178-185 | the reporter's queue gains exactly the first status records it has room for, and nothing else changes |
| AsyncLogging.AsyncLoggingHandler.ReportResults | src/scietex/logging/async_logging_handler.py:474-475 | every reporter in turn receives the results of all drains in registration order: one registered once gets exactly the status records it has room for, and the other backends get none |
| AsyncLogging.AsyncLoggingHandler.CancelWorkers | src/scietex/logging/async_logging_handler.py:488-495 | the timeout cancels exactly the workers still alive, the second loop exactly those that have not ended |
| AsyncLogging.AsyncLoggingHandler.AwaitWorkers | src/scietex/logging/async_logging_handler.py:488-496 | the cancelled workers end when the schedule lets them, none comes back to life, and the wait ends when the gather is settled |
| AsyncLogging.AsyncLoggingHandler.GatherOnce | src/scietex/logging/async_logging_handler.py:486-489 | the first gather is settled, or a cancelled worker is in its teardown and none has ended |
| AsyncLogging.AsyncLoggingHandler.GatherAgain | src/scietex/logging/async_logging_handler.py:489-496 | once a cancelled worker has ended, the others are cancelled again and all are awaited |
| AsyncLogging.AsyncLoggingHandler.GatherWorkers | src/scietex/logging/async_logging_handler.py:486-498 | the workers are forgotten once all have ended; until then stop waits for a teardown while no cancelled worker has ended, or for a worker it has cancelled twice |
| PipelineGather.GatherEndsExactly | src/scietex/logging/async_logging_handler.py:486-492 | from the timeout on, over every run, stop is stuck in its first gather if and only if a worker is in its teardown and no cancelled worker has ended |
| PipelineGather.RegatherEndsExactly | src/scietex/logging/async_logging_handler.py:493-496 | over every run, the second gather ends if and only if every worker that was in its teardown has ended |
| PipelineOutcomes.CancelledOncePerGather | src/scietex/logging/async_logging_handler.py:488-495 | a worker is cancelled at most twice: by the timeout of the first gather, and once more before the second |
| AsyncLogging.AsyncLoggingHandler.ClearQueue | src/scietex/logging/async_logging_handler.py:505-508 | a queue is emptied oldest first with one task_done per record |
| AsyncLogging.AsyncLoggingHandler.ClearQueues | src/scietex/logging/async_logging_handler.py:505-508 | all queues are |
| AsyncLogging.AsyncLoggingHandler.ClearIngress | src/scietex/logging/async_logging_handler.py:511-513 | everything the ingress held, and whatever raced emitters still put, is dropped oldest first; the ingress is empty then, and this ends |
| AsyncLogging.AsyncLoggingHandler.ReleaseReferences | src/scietex/logging/async_logging_handler.py:519-522 | loop, ingress, event and bridge are dropped one by one and all gone at the end |
| AsyncLogging.AsyncLoggingHandler.StopLogging | src/scietex/logging/async_logging_handler.py:431-522 | a no-op unless running; otherwise stop returns, leaving attributes and queues as of a handler never started, unless it is stuck in its first gather or a worker it cancelled twice has not ended |
| WorkerView.CancelMoved | src/scietex/logging/async_logging_handler.py:490-497 | a cancelled worker acknowledges the record it holds and ends, or awaits its teardown |
| WorkerView.MovesTaken | src/scietex/logging/async_logging_handler.py:308-310 | the moves a worker makes on its view are steps of the pipeline |
| WorkerView.OtherStepFeeds | src/scietex/logging/async_logging_handler.py:290-522 | everything anybody else does shows to a worker as a put while it runs, the running flag cleared, a leftover discarded after it ended, its start on an empty queue, or nothing |
| WorkerView.PutsOnlyWhileRunning | src/scietex/logging/async_logging_handler.py:396-478 | the pipeline puts into a worker's queue only while the running flag is set |
| Backoff.DelayClosedForm | src/scietex/logging/handler/broker.py:19-21 | the delay after k failures is min(0.5*2^k, 30) |
| Backoff.RateBound | src/scietex/logging/handler/broker.py:215-231 | n consecutive failures sleep T in total with n <= T/24 + 5 |
| BrokerTheorems.StepKeepsInv | src/scietex/logging/handler/broker.py:204-278 | every await that resumes, raises or is cancelled keeps the worker's invariant |
| BrokerTheorems.OneAttemptOneAcknowledge | src/scietex/logging/handler/broker.py:232-268 | every dequeued record is sent once and acknowledged once, in order, never retried; deliveries keep queue order; at most one record per worker is cut off, none without a cancellation; the drained count is exact |
| BrokerTheorems.FailedConnectsKeepRecords | src/scietex/logging/handler/broker.py:220-230 | while no connect succeeds and no final disconnect() is cut off, over failures, cancellations and restarts, nothing is dequeued or sent |
| BrokerTheorems.ReconnectRate | src/scietex/logging/handler/broker.py:215-231 | in every reachable state the k-th consecutive failure slept within 20% of the closed form, and the rate bound holds |
| BrokerTheorems.OwnedClientsReleased | src/scietex/logging/handler/broker.py:269-278 | every client connect() installed gets a disconnect attempt before its reference is dropped |
| BrokerTheorems.InjectedClientUntouched | src/scietex/logging/handler/broker.py:180-202 | with an injected client connect() and disconnect() are never called and no other client is used, over every restart |
| BrokerTheorems.EndedWithoutClient | src/scietex/logging/handler/broker.py:269-278 | the step that ends a worker leaves client at None if and only if it is not a cancellation inside the final disconnect() |
| BrokerTheorems.NoSendOnReleasedClient | src/scietex/logging/handler/broker.py:250-278 | in every run without that cancellation no record is sent on a client already told to disconnect, and an ended worker holds no client |
| BrokerTheorems.TeardownCanLeaveClient | src/scietex/logging/handler/broker.py:274-278 | a run in which that cancellation leaves the client in place |
| BrokerTheorems.NextWorkerSendsOnIt | src/scietex/logging/handler/broker.py:220-251 | and the next worker then sends on it without connecting |
| BrokerTheorems.CutTeardownReuses | src/scietex/logging/handler/broker.py:220-278 | the condition is exact: from every reachable state that meets it, some run sends on the client told to disconnect, without a connect |
| BrokerTheorems.CutTwiceHappens | src/scietex/logging/handler/broker.py:220-278 | a run that meets it with no connect having returned: connect and disconnect are both cut off |
| BrokerRefinement.RefinesWorker | src/scietex/logging/handler/broker.py:204-278 | each step of the broker worker is a run of the pipeline's worker steps with the same queue, hand and acknowledgements |
| BrokerRefinement.JointStepExists | src/scietex/logging/handler/broker.py:204-278 | neither machine holds the other up: what either can do, both can do together |
| BrokerRefinement.SecondCancelEnds | src/scietex/logging/handler/broker.py:269-278 | a worker cancelled before can be cancelled again only in its final disconnect(), and ends at once |
| BrokerRefinement.JointRunsStaySound | src/scietex/logging/handler/broker.py:204-278 | over every joint run of pipeline and broker worker, from registration on, both stay in states reachable for each alone and agree on queue, hand, acknowledgements, task and running flag |
| BrokerHang.TeardownEndsExactly | src/scietex/logging/handler/broker.py:269-278 | a cancelled worker leaves its final disconnect() exactly when that returns or raises or the worker is cancelled again |
| BrokerHang.StopHangsOnDisconnect | src/scietex/logging/async_logging_handler.py:482-498 | while it neither returns nor raises, under every schedule, stop can leave its first gather if and only if another cancelled worker has ended |
| BrokerHang.SecondCancelFrees | src/scietex/logging/async_logging_handler.py:489-496 | and then it cancels this worker again, which ends, its client left behind or not |
| BrokerHang.StopCanHang | src/scietex/logging/async_logging_handler.py:482-498 | a joint run with one backend that hangs: start, connect, stop, timeout |
| BrokerHang.StopCanPass | src/scietex/logging/async_logging_handler.py:482-498 | a joint run with two backends in which the disconnect() never returns and stop goes on |
| AsyncBroker.AsyncBrokerHandler.StartWorker | src/scietex/logging/async_logging_handler.py:307-310 | a worker starts at its loop test with the base delay |
| AsyncBroker.AsyncBrokerHandler.Connect | src/scietex/logging/handler/broker.py:220-231 | a missing client is restored or connected by a connect that returned; one that raised leaves none, touches no record and backs off before the next test |
| AsyncBroker.AsyncBrokerHandler.BackOff | src/scietex/logging/handler/broker.py:225-230 | the delay doubles up to the cap after a sleep that was not cancelled |
| AsyncBroker.AsyncBrokerHandler.Fetch | src/scietex/logging/handler/broker.py:232-251 | a get that returns on a queue with a record always takes it: exactly the oldest leaves the queue and is sent on the client in hand; any other turn takes none |
| AsyncBroker.AsyncBrokerHandler.Deliver | src/scietex/logging/handler/broker.py:250-268 | a send is acknowledged once: as delivered exactly if it returned, as reported if it raised, as cut off if it was cancelled |
| AsyncBroker.AsyncBrokerHandler.Reset | src/scietex/logging/handler/broker.py:261-266 | after a failed send the client is gone, whatever disconnect() does |
| AsyncBroker.AsyncBrokerHandler.FinishDisconnect | src/scietex/logging/handler/broker.py:274-278 | the reference is dropped if and only if no cancellation, first or second, cuts this await off before it has been |
| AsyncBroker.AsyncBrokerHandler.Worker | src/scietex/logging/handler/broker.py:215-278 | a worker that ended acknowledged all it dequeued, in order; one not cancelled emptied its queue and dropped its client; a client left behind is an owned one whose disconnect was cut off at the very end; it counts as cancelled only if it was; and with a broker that answers every call, a worker told to stop delivers all that is queued, in order, and ends |
| FileWorkerTheorems.StepKeepsInv | src/scietex/logging/backend/file.py:212-239 | every step of coroutine, executor thread or stray keeps the invariant |
| FileWorkerTheorems.WrittenOnce | src/scietex/logging/backend/file.py:214-232 | every dequeued record is acknowledged once; none is written more often than it was dequeued, on whatever executor; everything acknowledged as delivered was written, in that order |
| FileWorkerTheorems.HostSinkUntouched | src/scietex/logging/backend/file.py:149-172 | an injected file, like standard output, is never opened, closed or exchanged, and whatever is written goes there |
| FileWorkerWrites.HostGetsText | src/scietex/logging/backend/console.py:104-125 | in every reachable state with a write queued, thread and coroutine bring the text of that record to standard output or the injected file, once and at the end, and acknowledge it as delivered, exactly if the write goes well; otherwise nothing is written and it is reported |
| FileWorkerWrites.OwnedFileGetsText | src/scietex/logging/backend/file.py:149-190 | the same for a file the backend owns: on the open handle, or on the one that open() brings; written and delivered exactly if there is a handle, the write goes well and no abandoned close has closed it |
| FileWorkerWrites.BegunGoesOn | src/scietex/logging/_executor.py:32-57 | in every reachable state, no step of the coroutine or of anybody else drops an operation the thread has begun: it goes on in place, or as a stray when its worker is cancelled at its close |
| FileWorkerWrites.StraysGoOn | src/scietex/logging/_executor.py:32-57 | nor does any step but its own touch what an abandoned thread is at |
| FileWorkerTeardown.WrittenInOrder | src/scietex/logging/backend/file.py:214-239 | the texts written are those of some of the records dequeued, in order, unless a close was cut off behind a live write |
| FileWorkerTeardown.CyclesInOrder | src/scietex/logging/_executor.py:32-57 | and all writes of one start cycle precede all writes of the next |
| FileWorkerTeardown.NoWriteOutlivesItsWorker | src/scietex/logging/_executor.py:48-57 | between cycles no executor, not even an abandoned one, has a write left, unless a close was cut off behind a write |
| FileWorkerTeardown.EndedWithoutStream | src/scietex/logging/backend/file.py:233-239 | the step that ends the worker leaves an owned stream at None if and only if it is not a cancellation of the unfinished close, unless a write yet to open the stream was abandoned before |
| FileWorkerTeardown.NoWriteAfterClose | src/scietex/logging/backend/file.py:233-239 | no write is attempted on a closed handle in any run -- every interleaving, any number of restarts -- unless a close was cut off while the thread ran anything |
| FileWorkerTeardown.EveryHandleClosed | src/scietex/logging/backend/file.py:164-177 | when no close was cut off, an ended worker has closed every handle it ever opened |
| FileWorkerCuts.CutLiveWriteMixes | src/scietex/logging/backend/file.py:238-239 | from every reachable state in which a close is cut off behind a live write, some run writes a text of the next cycle before one of this cycle, out of the order of the queue |
| FileWorkerCuts.CutBehindWriteOutlives | src/scietex/logging/backend/file.py:238-239 | a close cut off behind a write leaves that write running with its worker ended |
| FileWorkerCuts.CutOpeningReopens | src/scietex/logging/backend/file.py:238-239 | from every state in which that write has yet to open the stream, some run ends the next worker by itself with the stream open |
| FileWorkerCuts.CutBusyCloseSpoils | src/scietex/logging/backend/file.py:238-239 | wherever a run first cuts off a close while the thread runs anything, some continuation writes to a closed handle in the next cycle |
| FileWorkerCuts.CutWriteHappens | src/scietex/logging/backend/file.py:233-239 | a run that cuts off a close behind a write about to open the stream: the worker is cancelled in its write and again in its close |
| FileWorkerCuts.CutRunningCloseHappens | src/scietex/logging/backend/file.py:238-239 | a run that cuts off a running close |
| FileWorkerCuts.QueuedCloseIsDropped | src/scietex/logging/backend/file.py:238-239 | a run in which a close cut off in the queue leaves the written file open |
| FileRefinement.RefinesWorker | src/scietex/logging/backend/file.py:212-239 | each step of the file or console worker is a run of the pipeline's worker steps with the same queue, hand and acknowledgements |
| FileRefinement.SecondCancelEnds | src/scietex/logging/backend/file.py:233-239 | a worker cancelled before can be cancelled again only at the close of its file, and ends at once; the console worker cannot |
| FileRefinement.JointRunsStaySound | src/scietex/logging/backend/file.py:212-239 | the same over every joint run of pipeline and file or console worker |
| FileBackends.WriteExecutor.Run | src/scietex/logging/_executor.py:32-46 | an operation goes behind those already queued; the pool is made on first use |
| FileBackends.WriteExecutor.Release | src/scietex/logging/_executor.py:48-57 | a shut-down executor is as new |
| FileBackends.FileBackend.OpenStream | src/scietex/logging/backend/file.py:149-162 | a sink of the host's is the target without an open(); an owned stream is opened when there is none, and the target is the open one or none |
| FileBackends.FileBackend.CloseStream | src/scietex/logging/backend/file.py:171-177 | only an owned open stream is closed |
| FileBackends.FileBackend.EndWrite | src/scietex/logging/backend/file.py:188-190 | a text reaches its handle, and a closed handle raises |
| FileBackends.FileBackend.RunStray | src/scietex/logging/_executor.py:32-57 | an abandoned thread goes on with its open, write or close on the backend's own stream |
| FileBackends.FileBackend.Fetch | src/scietex/logging/backend/file.py:214-224 | a get that returns on a queue with a record always takes it: exactly the oldest leaves the queue, and its write is submitted or, without a text, it is acknowledged at once; any other turn takes none |
| FileBackends.FileBackend.Dispatch | src/scietex/logging/backend/file.py:219-224 | the oldest record is formatted and its write submitted, or it is acknowledged at once |
| FileBackends.FileBackend.AwaitWrite | src/scietex/logging/backend/file.py:224-232 | the record is acknowledged once, as cut off only by the cancellation |
| FileBackends.FileBackend.WriteCameBack | src/scietex/logging/backend/file.py:224-232 | a finished write is acknowledged as delivered exactly if it succeeded, otherwise as reported |
| FileBackends.FileBackend.AwaitClose | src/scietex/logging/backend/file.py:233-238 | the close finishes before the worker goes on, unless the worker is cancelled here |
| FileBackends.FileBackend.ShutDown | src/scietex/logging/_executor.py:48-57 | shutdown(wait=True) returns with the thread out of work, however the I/O goes: the write a cancelled console worker left running has gone out if its calls went well, and an owned stream is released unless an earlier cycle abandoned a write yet to open it |
| FileBackends.FileBackend.Worker | src/scietex/logging/backend/file.py:212-239 | a worker that ended acknowledged all it dequeued; one not cancelled emptied its queue; one not cut in its close released an owned stream, unless an earlier cycle abandoned a write yet to open it; and with a sink that takes every text, a worker told to stop writes and delivers all that is queued, in order, and ends |
| Rotation.RolledOverReads | src/scietex/logging/backend/file.py:315-321 | a rollover keeps the newest texts in order even when one of its renames raises, and moves the live file away when none does |
| Rotation.RolloverLoses | src/scietex/logging/backend/file.py:315-321 | in terms of what can be read back, a rollover loses exactly the texts of the backup `.n`, when it exists and `.(n-1)` exists to replace it (if its rename raises, when that had removed it), and nothing otherwise |
| Rotation.RolledOverAt | src/scietex/logging/backend/file.py:315-321 | a rollover that goes through moves every backup and the live file one number up, contents unchanged; numbers with nothing below them become free, higher files stay |
| Rotation.RotatingFileBackend.DoRollover | src/scietex/logging/backend/file.py:315-321 | on a stream they have closed, the descending renames move each backup to the next number and the live file to `.1`, unless one raises |
| Rotation.RotatingFileBackend.WriteRecord | src/scietex/logging/backend/file.py:299-323 | for every sequence of rollover decisions and failures, backups oldest first and the live file are the newest texts in order, the last one written at the end of the live file; a call loses nothing but the oldest backup of a rollover, behind which the live file is just the new text; a text is written if and only if no rollover has raised since the worker last closed the stream and the calls made now succeed |
| Rotation.FailedRolloverLosesTheCycle | src/scietex/logging/backend/file.py:315-323 | one rename that raises and no later record of the cycle is written |
| Rotation.TimedRotatingFileBackend.WriteRecord | src/scietex/logging/backend/file.py:391-416 | archives and live file are the newest texts in order; a rollover makes the live file the newest archive and drops the oldest one only beyond the limit; the next rollover heals the stream that a rollover which raised has closed; exactly when a text is written |
| Rotation.WatchedFileBackend.WriteRecord | src/scietex/logging/backend/file.py:469-488 | a text is written if and only if no reopen has raised since the worker last closed the stream and the calls made now succeed; it is appended to the file the path names now, however it was replaced, and other files keep theirs, unless the watcher never saw the stream's file |
| Rotation.FailedReopenLosesTheCycle | src/scietex/logging/backend/file.py:481-488 | one reopen that raises and no later record of the cycle is written |
| Rotation.UncheckedStreamGoesAstray | src/scietex/logging/backend/file.py:476-488 | a run in which a stat that raised lets the next text go to a file the path no longer names |
| Color.OneOnEachPlateau | src/scietex/logging/_color.py:69-79 | of the three phase-shifted hues exactly one is on the upper and one on the lower plateau |
| Color.HslRecovered | src/scietex/logging/_color.py:59-79 | largest plus smallest channel is twice the lightness, their difference is the saturation's share of the room, all channels in [0,1] |
| Color.HueRecovered | src/scietex/logging/_color.py:69-79 | for every saturated colour between black and white, the usual hue formula applied to the three channels gives the hue back, so each channel is on its own ramp |
| Color.FromHslInRange | src/scietex/logging/_color.py:208-212 | channels are rounded to the nearest integer and lie in 0..255 |
| Color.ClampedIsNearest | src/scietex/logging/_color.py:100-109 | clamping takes each component to the nearest valid one |
| Color.BrightnessShares | src/scietex/logging/_color.py:117-121 | brightness is the 299-587-114 mean: black is 0, white 1, each channel has its share |
| Color.InverseMirrors | src/scietex/logging/_color.py:94-98 | the inverse mirrors each channel and the brightness, keeps alpha, and undoes itself |
| Color.ContrastGap | src/scietex/logging/_color.py:256-258 | contrast text differs from its background by at least half the brightness scale |
| Color.MixNear | src/scietex/logging/_color.py:219-233 | a blended channel is the exact one truncated and lies between its two ends |
| Color.TowardsZero | src/scietex/logging/_color.py:228-233 | int() cuts towards zero |
| Color.BlendMixes | src/scietex/logging/_color.py:219-233 | at factor 0 the colour, at 1 the destination, in between each channel the mix of its own two, with the alpha asked for or mixed alike |
| Color.BlendBrightness | src/scietex/logging/_color.py:219-233 | blending mixes brightness in proportion, up to one 255th |
| Color.MutedGap | src/scietex/logging/theme_textual.py:97-133 | muted text differs from its background by more than (1-alpha)/2 - 1/255 |
| Color.Hex6RoundTrip | src/scietex/logging/_color.py:131-177 | parsing what hex6 prints gives the clamped opaque colour |
| Color.ParsePrints | src/scietex/logging/_color.py:131-177 | printing what a six-digit text parses to gives the text back |
| Color.ShortForms | src/scietex/logging/_color.py:164-174 | three and four digits parse as the doubled long forms |
| Color.AlphaDigits | src/scietex/logging/_color.py:178-180 | eight digits parse as six with their last two over 255 as alpha |
| Color.Notations | src/scietex/logging/_color.py:148-206 | a text without `#` is a colour exactly if one of the functional notations reads it, and then that one |
| Color.CaseDoesNotMatter | src/scietex/logging/_color.py:164-180 | texts that differ in the case of hex digits parse alike |
| Theme.ParsersAgree | src/scietex/logging/theme.py:27-35 | of '#' and six characters, both hex parsers accept exactly six hexadecimal digits of either case and find the same channels |
| Theme.HashIsOptional | src/scietex/logging/theme.py:27-35 | without the `#` the escape printers accept the same six digits |
| Theme.PrintedParses | src/scietex/logging/theme.py:38-61 | a printed colour is accepted by ansi_fg, which prints its channels in decimal |
| ThemeTextual.SlotsAreHex | src/scietex/logging/theme_textual.py:284-294 | every slot is '#' and six upper-case hex digits, debug unless text-muted is an ANSI name |
| ThemeTextual.SlotsShow | src/scietex/logging/theme_textual.py:197-294 | what each slot shows: the colour of its own token, or of the first fallback the theme gives -- success and error fall back to secondary, then primary, warning and accent to primary -- a missing foreground the inverse of the background, and CRITICAL's background on a dark theme the error colour darkened |
| ThemeTextual.TokensAreKept | src/scietex/logging/theme_textual.py:85-105 | where the Lab round trip changes nothing, a token given as `#RRGGBB` is printed as it is by exactly the slots it is chosen for |
| ThemeTextual.VariablesComeFirst | src/scietex/logging/theme_textual.py:67-69 | a variable of the theme comes before its attribute, and an empty text counts as none |
| ThemeTextual.AnsiIsReplaced | src/scietex/logging/theme_textual.py:70-71 | an ANSI name stands for what the caller's palette has in its place, and fails without an entry |
| ThemeTextual.NamedAndSwitched | src/scietex/logging/theme_textual.py:187-188 | the converted theme has the name asked for, or else the source's own, or `textual` |
| ThemeTextual.ConvertedThemePaints | src/scietex/logging/theme_textual.py:284-295 | every level of a converted theme has a colour, and the escape printers accept it unless it is DEBUG's and an ANSI name was given a replacement they do not accept |
| ThemeTextual.ConvertsExactly | src/scietex/logging/theme_textual.py:183-295 | the conversion succeeds if and only if there is a primary colour, each token the theme gives resolves, and an ANSI theme comes with a palette |
| ThemeTextual.FallbackParses | src/scietex/logging/theme_textual.py:67-72 | a fallback taken from another slot never makes a slot fail |
| ThemeTextual.CriticalIsLegible | src/scietex/logging/theme_textual.py:278-292 | the printed CRITICAL text and background differ by at least half the brightness scale |
| ThemeTextual.DebugIsLegible | src/scietex/logging/theme_textual.py:121-133 | the printed debug colour of `auto a%` differs from the background by more than (1-a/100)/2 - 1/255 |
| ThemeTextual.DebugByDefault | src/scietex/logging/theme_textual.py:117-133 | without the token the printed debug colour is legible as of `auto 60%` |
| ThemeTextual.MutedIsTaken | src/scietex/logging/theme_textual.py:121-128 | a text-muted token that is given is taken, even an empty one, and trailing `%` signs do not matter |
| ThemeTextual.TranslucentMixes | src/scietex/logging/theme_textual.py:97-105 | a translucent colour prints, channel by channel, as its mix with the background by its alpha, opaque |
| ThemeTextual.AutoIsContrast | src/scietex/logging/theme_textual.py:124-133 | plain `auto` is printed white on a background in the lower half of the brightness scale and black on the others |
| Terminal.DecimalReads | src/scietex/logging/theme.py:47-48 | a printed numeral reads back as its number |
| Terminal.ColorSequenceApplies | src/scietex/logging/theme.py:38-61 | a terminal takes ansi_fg and ansi_bg to set exactly that colour |
| Terminal.SimpleSequenceApplies | src/scietex/logging/theme.py:22-24 | and RESET, BOLD and DIM to do exactly what they are named for |
| Formatter.PaintText | src/scietex/logging/formatter/scietex.py:33-42 | the prefix list joins to the painted text, or fails on an unusable slot |
| Formatter.PaintShows | src/scietex/logging/formatter/scietex.py:15-42 | a painted text shows as the text in the style asked for, and the style is back to default behind it |
| Formatter.FormatRecord | src/scietex/logging/formatter/scietex.py:130-151 | formatting assigns to a copy and leaves the caller's record alone |
| Formatter.ColorOnlyColors | src/scietex/logging/formatter/scietex.py:106-151 | for texts without ESC a terminal shows of the coloured output exactly the monochrome output, each field in its style, and ends in default style |
| Formatter.MonochromeLine | src/scietex/logging/formatter/scietex.py:87-89 | the text of an uncoloured record in the default format, field by field |
| Formatter.ColoredLine | src/scietex/logging/formatter/scietex.py:106-145 | what a terminal shows of a coloured one: the timestamp dim, the level bold in its own slot and at CRITICAL on that background, the name in the logger's slot, the message in the foreground, all else plain |
| Formatter.SlotsColorTheirLevels | src/scietex/logging/theme.py:103-123 | changing a slot of the palette changes the colour of its own level only |
| Formatter.NamedLevels | src/scietex/logging/config.py:173-180 | the five names |
| Formatter.LevelsAreDistinct | src/scietex/logging/config.py:173-180 | no two levels are printed alike, named or numbered |
| Formatter.PaddedReads | src/scietex/logging/config.py:180 | a level without a name is printed as its number in at least three places |
| Formatter.HexPaletteFormats | src/scietex/logging/formatter/scietex.py:133-145 | with a palette of #RRGGBB slots, as the conversion makes them, formatting never fails |

## Left out

- Redis, Valkey and MQTT adapters, connection configs, handler constructors: pass-through; only the contract that `connect`, `send_message` and `disconnect` may raise or be cut off is kept.
- Sampling the backoff jitter, clocks, and the one-second `get` timeout: each is a free choice of the script or schedule.
- Liveness under endless load: `AsyncLogging.AsyncLoggingHandler.BridgeRound` assumes that emitters fall silent, because the bridge's inner loop ends only then.
- Overlapping or cross-loop start and stop, a loop closed under a live handler, cancellations of a worker by anybody but stop, `close()` of a stream raising in the teardown.
- The CIE-Lab conversions: an arbitrary function whose result `darken` clamps; no claim that `_canonical` is idempotent.
- Floating-point rounding: colours, delays and percentages are reals; no alpha round trip for eight-digit hex.
- The functional notations `rgb()`, `rgba()`, `hsl()`, `hsla()`: what they parse to is a parameter.
- `ParseHex`: `int(text, 16)` also takes signs, blanks and non-ASCII digits, which no slot of a converted theme contains.
- Two threads at once inside `_open_stream`, or between the test and the close in `_close_stream`: test and act are one step. It takes an operation abandoned by a cut-off close.
- ERROR results of a drain carry the exception's text, which the model leaves empty.
- Whether a write of which only the flush failed reached the file: it counts as not written.
- Rotation in mode "w", the size bound `maxBytes`.
- Rotation.TimedRotatingFileBackend.WriteRecord: archive names, and so a rollover that finds its name taken, are left to the stdlib rotator.
- Status reporters that are not registered backends: any coroutine may be registered, the model has only the backends' own `report_status`.
- `close()` from another thread in the middle of `start_logging`, between its closed test and the opening of the gate.
- JSON formatting, ISO timestamps and `datefmt`, templates other than plain fields, exception text (a parameter), TTY and environment detection, the brand themes, the Textual viewer.
