# Verified model of the messaging and shared state of the FastAPI demo

This project models the parts of the application that are real concurrent state machines and
proves properties of them for every interleaving:

- the RabbitMQ **consumer**: deliveries under a prefetch cap, tracked tasks behind a counting
  semaphore, settlement, reconnects that do not drain, and the drain on cancellation;
- the **health checker** and the channel reference it shares with the consumer;
- the **publisher**'s lock-guarded cache of one connection and one channel, with its unlocked `close()`;
- background **jobs**, the **WebSocket** broadcast they end with, and **refresh-token** rotation.

The event loop runs one coroutine at a time, so what lies between two suspension points is one
event. Each component is a state, a set of events with their guards (`Enabled`) and their effect
(`Next`), and runs are lists of events. Lemmas speak of the state after any run. Beside each
machine stands a class with the module's own fields, whose methods update them in place; its
`Valid()` says that some run reaches the present fields, so every theorem about runs is a theorem
about the class. The consumer's and the checker's methods are the code between two suspension
points, proved to be exactly one event (`Did`). The publisher's and the jobs' methods are whole
calls that nothing interrupts, proved to be a sequence of events with the stated outcome. The
connection list and the token table are plain values in one field; their methods state the new
value outright.

## Layout

| file | content |
|---|---|
| `Messages.dfy` | message bodies, handler registry, routing |
| `Broker.dfy` | the broker's side: sections 3.1.7 and 3.1.8 of AMQP 0-9-1 |
| `ConsumerProtocol.dfy` | the consumer's states, events and runs |
| `ConsumerInvariants.dfy` | what every event keeps |
| `ConsumerTheorems.dfy`, `ConsumerHistories.dfy` | properties of whole runs |
| `ConsumerOrder.dfy` | what follows what: order of tasks, phases, cancels, causes, read off the events |
| `ConsumerLimits.dfy` | what the consumer's limits do not limit: requeues, tasks across reconnects |
| `ConsumerService.dfy` | the consumer module in place |
| `Health.dfy` | health transition against a specification over the whole history |
| `SharedChannel.dfy`, `HealthChecker.dfy` | probes, the shared reference, the module in place |
| `ConsumerHealth.dfy` | consumer and checker side by side |
| `Publisher.dfy`, `PublisherModule.dfy` | the connection cache, and the module in place |
| `WebSockets.dfy`, `ConnectionList.dfy` | the connection list under interleaving, and in place |
| `BroadcastSkips.dfy` | which listed sockets a broadcast misses |
| `Jobs.dfy`, `JobService.dfy` | job lifecycle with its broadcast, and the store in place |
| `JobHistories.dfy` | which path a job takes, and what its record says of the run |
| `Tokens.dfy` | token rotation |

## Assumptions about the environment

- A settlement counts only for a delivery that is unacknowledged on the live channel; closing a
  channel returns its unacknowledged messages to the queue. Ack and nack without requeue are both
  final. A prefetch count of 0 means no limit.
- `message.process(requeue=False)` acks on normal exit and rejects on an exception, CancelledError
  included; the first settlement of a delivery is the only effective one.
- A transient reconnect of the robust connection is a lost channel followed by a new epoch; the
  queue iterator and what it has buffered survive it.
- Leaving the `async with connection` scope closes the channel, also when the closing itself is
  interrupted.
- Closing a connection or channel is permanent and closes a connection's channels; an open that
  fails or is cancelled leaves nothing open.
- Sockets, job ids, generated tokens, message and delivery identities are fresh.

## Where code and documentation differ

The model follows the code.

- The first healthy probe gives `RECOVERED` (`fastapi_app/rmq/health.py:235-236`), not `ALIVE` as in the docstring (line 204).
- A failing handler requeues without limit (`fastapi_app/rmq/consumer.py:126`); the repository's README promises one retry (line 105): see `ConsumerLimits.RequeuedPerFailure` and `ConsumerLimits.RequeuedWithoutLimit`.
- Prefetch and semaphore bound memory (`fastapi_app/rmq/consumer.py:65-68`) on one channel only: see `ConsumerLimits.TasksPileUpAcrossChannels`.
- A cancellation does not always stop the consumer: see `ConsumerHistories.CancellationLostIff` and `ConsumerHistories.CancellationCanBeLost`.
- Bad JSON and unknown event types leave `message.process` normally and are acked, where the comments at `fastapi_app/rmq/consumer.py:111` and `:119` say nack; both are final. JSON that is not an object, or an unhashable event type, leaves it with an exception and is final too.
- A handler that ends in CancelledError without being cancelled has its message settled as final, not requeued.
- The tracker is a set of tasks, not the TaskGroup of the module docstring.
- `Done` is not final on the asynchronous path: see `Jobs.DoneTurnsFailedIff` and `Jobs.DoneCanTurnFailed`.
- The queue-missing hook does not fire for every outage: see `Health.HookFromTwoEvents` and `Health.FlaggedOutageIsSilent`.
- A cancelled back-off sleep ends the consumer without draining: see `ConsumerTheorems.StopAbandons`.
- A late probe can clear the reference to a newer channel: see `SharedChannel.LateProbeClears`.
- A broadcast does not reach every listed socket: see `BroadcastSkips.SkippedIffSlipped` and `BroadcastSkips.DisconnectMakesBroadcastSkip`.
- A broadcast whose failed sends are collected can still raise: see `WebSockets.RaisesIffDeadSocketGone` and `BroadcastSkips.DisconnectMakesBroadcastRaise`.

## Model

| member | source | states |
|---|---|---|
| Messages.LastRegistrationWins | fastapi_app/rmq/consumer.py:32-38 | an event type is bound iff it was ever registered, and then to its last registration |
| ConsumerTheorems.MessagesConserved | fastapi_app/rmq/consumer.py:86-257 | in every reachable state each accepted message is in exactly one of ready, unacknowledged on the live channel (under one tag), final; no other message is anywhere |
| ConsumerTheorems.DeliveriesAddUp | fastapi_app/rmq/consumer.py:105-127 | per message: deliveries = handler-failure requeues + returns from closed channels + 1 if final + 1 if unacknowledged |
| ConsumerTheorems.NoDeliveryForgotten | fastapi_app/rmq/consumer.py:222-224 | while consuming, a delivery is unacknowledged iff it is of the live channel and buffered or carried by its own unanswered task |
| ConsumerTheorems.FinalOnlyByLiveAnswer | fastapi_app/rmq/consumer.py:105-127 | final is forever; a message becomes final in an event iff a task that was not cancelled answers for it, without requeue, on the live channel |
| ConsumerTheorems.CancellationLosesNothing | fastapi_app/rmq/consumer.py:193-252 | once the drain has begun, whatever tasks do afterwards, no further message becomes final and every message that is not final is back in the queue |
| ConsumerTheorems.NothingSpawnedOutsideLoop | fastapi_app/rmq/consumer.py:222-257 | once the consume loop is left, for whatever cause, no task is spawned until a new connection consumes again |
| ConsumerTheorems.WoundDownForGood | fastapi_app/rmq/consumer.py:149-252 | from the drain on the consumer stays wound down in any continuation: no task is spawned, nothing is delivered, nothing becomes final |
| ConsumerHistories.WindsDownIffCancelled | fastapi_app/rmq/consumer.py:184-257 | the consumer is unwinding a cancellation, draining or stopped iff its run holds a cancellation that no later error overtook |
| ConsumerHistories.CancellationLostIff | fastapi_app/rmq/consumer.py:193-257 | a cancellation that is not repeated is lost iff an error is raised while the connection scope is still unwinding it |
| ConsumerHistories.CancellationCanBeLost | fastapi_app/rmq/consumer.py:193-257 | a run in which a cancelled consumer reconnects and spawns another task |
| ConsumerHistories.ReconnectsOnlyAfterPause | fastapi_app/rmq/consumer.py:184-257 | between two connects of a run lies a completed back-off or the end of the message stream; no error reconnects at once |
| ConsumerOrder.LastCauseDecides | fastapi_app/rmq/consumer.py:222-257 | what was raised last decides: the end of the stream reconnects at once, a cancellation drains exactly the tasks whose callback has not run, any other exception backs off |
| ConsumerTheorems.SlotsConserved | fastapi_app/rmq/consumer.py:73-127 | free slots plus tasks inside the semaphore body equal the cap across any number of reconnects; running handlers never exceed the cap |
| ConsumerTheorems.CarryingAcrossChannels | fastapi_app/rmq/consumer.py:197-224 | tasks from k channels: at most k times prefetch of them carry a message they have not answered for |
| ConsumerTheorems.BlockedOnlyBehindAnswered | fastapi_app/rmq/consumer.py:54-101 | a task blocked on a full semaphore, with carried messages from k channels, implies at least slots - k * prefetch + 1 slot holders that have already answered |
| ConsumerTheorems.BlockedOnOneChannel | fastapi_app/rmq/consumer.py:54-101 | the same for one channel, live or dead, and prefetch at most the cap |
| ConsumerLimits.TasksPileUpAcrossChannels | fastapi_app/rmq/consumer.py:54-69 | for every k there is a run over k channels with k times prefetch unanswered tasks, whatever the cap: the bound is reached |
| ConsumerLimits.NoPrefetchNoLimit | fastapi_app/rmq/consumer.py:197-199 | with a prefetch of zero one channel can have any number of unacknowledged deliveries |
| ConsumerLimits.OneTaskPerMessageAndChannel | fastapi_app/rmq/consumer.py:86-127 | the unanswered tasks of one message come from as many different channels as there are tasks; its handlers run at once at most as often |
| ConsumerLimits.RequeuedPerFailure | fastapi_app/rmq/consumer.py:122-127 | over a whole run a message is requeued exactly as often as handlers failed on a delivery of it that was still unacknowledged |
| ConsumerLimits.RequeuedWithoutLimit | fastapi_app/rmq/consumer.py:122-127 | for every n there is a run that requeues one message n times |
| ConsumerTheorems.TrackerExact | fastapi_app/rmq/consumer.py:133-146 | the tracker holds exactly the spawned tasks whose done-callback has not run |
| ConsumerOrder.FirstInFirstSpawned | fastapi_app/rmq/consumer.py:222-224 | while consuming, the deliveries pushed since the loop began, in order, are those that have their task followed by those that are buffered |
| ConsumerOrder.SpawnsOldest | fastapi_app/rmq/consumer.py:222-224 | the task spawned next is that of the oldest delivery without one |
| ConsumerOrder.PhaseFromEvents | fastapi_app/rmq/consumer.py:99-146 | a task holds a slot iff it was granted one and has neither left nor been aborted; it is done iff it has left or been aborted, reaped iff its callback has run |
| ConsumerOrder.CancelledIffGivenUp | fastapi_app/rmq/consumer.py:157-167 | a task is sent a cancel iff a drain timed out while it was spawned and its callback had not run |
| ConsumerTheorems.DrainCoversEveryTask | fastapi_app/rmq/consumer.py:149-167 | after a drain every task ever spawned has finished or has been sent a cancel |
| ConsumerTheorems.StopAbandons | fastapi_app/rmq/consumer.py:228-257 | stopping leaves an unfinished, uncancelled task behind iff it happens in a back-off sleep and the task was tracked and unfinished |
| ConsumerTheorems.TasksNeverStuck | fastapi_app/rmq/consumer.py:101-146 | with a positive cap, while a task is tracked some task can move without being cancelled: no slot leaks away |
| ConsumerHistories.EachStageOnce | fastapi_app/rmq/consumer.py:99-146 | over a whole run a task is granted at most one slot, gives back exactly what it was granted (none if cancelled while waiting), enters the body and is reaped at most once |
| ConsumerHistories.SettledAsAnswered | fastapi_app/rmq/consumer.py:105-127 | a delivery has exactly one effective requeue iff its handler raised an ordinary exception while it was unacknowledged, one final settlement iff it ended in any other way then, never more than one |
| ConsumerHistories.OneSettlementPerAnswer | fastapi_app/rmq/consumer.py:105-127 | on the live channel a delivery has had exactly one effective settlement iff its task has answered |
| ConsumerHistories.RunsLastRegistered | fastapi_app/rmq/consumer.py:107-123 | a delivery carries the body its message was published with, runs the handler last registered for its event type in the run's history, and is answered for at once iff there is none |
| ConsumerHistories.BackOffCancelAbandonsTask | fastapi_app/rmq/consumer.py:238-243 | a run in which the consumer stops with a live, uncancelled task behind it |
| ConsumerService.Consumer.GetSemaphore | fastapi_app/rmq/consumer.py:73-82 | created on first use with the cap, afterwards unchanged |
| ConsumerService.Consumer.RegisterHandler | fastapi_app/rmq/consumer.py:32-38 | exactly the registration event |
| ConsumerService.Consumer.TryAcquire | fastapi_app/rmq/consumer.py:99-101 | grants a slot iff one is free; otherwise the task and the counter stay |
| ConsumerService.Consumer.EnterMessageBody | fastapi_app/rmq/consumer.py:106-119 | parse and route in place is exactly the event of entering the body |
| ConsumerService.Consumer.FinishHandler | fastapi_app/rmq/consumer.py:122-127 | nack with requeue, then the context manager's reject, has the effect of the requeue alone |
| ConsumerService.Consumer.ExitSemaphore | fastapi_app/rmq/consumer.py:101-127 | leaving the semaphore body gives back exactly the slot the task held |
| ConsumerService.Consumer.ProcessMessage | fastapi_app/rmq/consumer.py:86-127 | the whole processor, uninterrupted: the delivery is settled by its disposition and the free slots are as before |
| ConsumerService.Consumer.CancelTask | fastapi_app/rmq/consumer.py:101-127 | a cancel finishes a task in any phase but a running handler, which is answered for; the broker is unchanged |
| ConsumerService.Consumer.SpawnTask | fastapi_app/rmq/consumer.py:136-146 | takes the front of the buffer, and tracks one new task for it |
| ConsumerService.Consumer.DoneCallback | fastapi_app/rmq/consumer.py:146 | removes exactly the finished task from the tracker |
| ConsumerService.Consumer.DrainTimeout | fastapi_app/rmq/consumer.py:163-167 | the loop sends a cancel to exactly the tasks still tracked |
| ConsumerService.Consumer.Connect | fastapi_app/rmq/consumer.py:187-195 | a new channel epoch and a new channel number for the health checker |
| ConsumerService.Consumer.BeginConsuming | fastapi_app/rmq/consumer.py:199-222 | listening starts on the live channel and changes nothing else |
| ConsumerService.Consumer.LeaveLoop | fastapi_app/rmq/consumer.py:222-257 | unwinding discards the iterator's buffer and nothing else |
| ConsumerService.Consumer.CloseScope | fastapi_app/rmq/consumer.py:193-257 | the channel is dead before back-off or drain begins |
| ConsumerService.Consumer.EndBackOff | fastapi_app/rmq/consumer.py:238-257 | a back-off leads to a new connect, or, cancelled, to a stop without a drain |
| Health.StatusFromLastTwo | fastapi_app/rmq/health.py:220-262 | after any history the status is a closed function of the classes of the last two events |
| Health.FailuresCounted | fastapi_app/rmq/health.py:229-262 | consecutive_failures is the number of failing probes since the last healthy one; consumer writes neither count nor reset |
| Health.LastAliveIsLastHealthy | fastapi_app/rmq/health.py:230-233 | last_alive is the time of the last healthy probe, unset iff there was none |
| Health.LastDeadIsLastOutageStart | fastapi_app/rmq/health.py:242-262 | last_dead is the time of the latest failing probe not preceded by an event of its own failure class, unset iff there was none |
| Health.LastProbeRecorded | fastapi_app/rmq/health.py:226-228 | last_checked, probe_method and queue_exists are those of the last probe |
| Health.HookFromTwoEvents | fastapi_app/rmq/health.py:230-262 | which hook a tick fires, from the classes of its probe and the event before; queue-missing fires iff the event before was not queue-missing, consumer write included |
| Health.FlaggedOutageIsSilent | fastapi_app/rmq/health.py:242-252 | after the consumer's write a probe that finds the queue missing fires no hook and sets no last_dead |
| Health.TransitionHooksAlternate | fastapi_app/rmq/health.py:230-262 | between two calls of one transition hook there is another transition hook, or, except for queue-missing, a consumer write |
| Health.RepeatedProbesAreQuiet | fastapi_app/rmq/health.py:235-262 | a probe of the same class as the event before fires no transition hook |
| Health.HooksFindTheirTimes | fastapi_app/rmq/health.py:80-87 | the down and recovered hooks find the time they format set to the probe's own time |
| SharedChannel.ReferenceIsLatest | fastapi_app/rmq/health.py:31-38 | in every interleaving the shared channel is unset or the one registered last; a probe under way holds a channel that was registered |
| SharedChannel.ProbeAsksOn | fastapi_app/rmq/health.py:191-195 | a probe asks on the channel registered last iff the reference is set and that channel open, otherwise on a connection of its own |
| SharedChannel.FindingDecides | fastapi_app/rmq/health.py:143-184 | in any run the status after a probe is DEGRADED iff the queue was absent, DEAD iff the probe failed, ALIVE or RECOVERED iff it was found; queue_exists and the probe method follow, and the history grows by this probe alone |
| SharedChannel.LateProbeClears | fastapi_app/rmq/health.py:120-195 | a probe's end changes the reference iff it was passive and failed with the reference set, and then only clears it; what it clears is not what it probed iff the consumer has registered since |
| SharedChannel.ClearedUntilRegistered | fastapi_app/rmq/health.py:191-195 | once cleared the reference stays unset until the next registration and probes connect afresh |
| SharedChannel.SpanningProbeClearsNewChannel | fastapi_app/rmq/health.py:158-162 | a run in which a probe of the old channel clears the registration of the new one |
| HealthChecker.Checker.SetSharedChannel | fastapi_app/rmq/health.py:34-38 | registers or clears the reference and changes nothing else |
| HealthChecker.Checker.FlagDegraded | fastapi_app/rmq/consumer.py:228-233 | the consumer's write changes the status and the reference and no other health field |
| HealthChecker.Checker.StartProbe | fastapi_app/rmq/health.py:191-195 | passive iff a channel is registered and open |
| HealthChecker.Checker.ConcludeProbe | fastapi_app/rmq/health.py:120-195 | the broker counts as alive unless the probe failed, the queue as there or missing as found; only a failed passive probe clears the reference |
| HealthChecker.Checker.Tick | fastapi_app/rmq/health.py:222-262 | the field-by-field update is the specified transition, with its hook |
| HealthChecker.Checker.FinishProbe | fastapi_app/rmq/health.py:120-262 | one event of the joint machine: an absent queue ends in DEGRADED, a failed probe in DEAD with the down hook if it was not DEAD before, a found queue in ALIVE or RECOVERED |
| ConsumerHealth.JointRun | fastapi_app/rmq/consumer.py:187-257 | consumer and checker side by side each behave as alone; the reference names the newest channel or nothing, and nothing while the consumer backs off, drains or has stopped |
| ConsumerHealth.ConsumerFlags | fastapi_app/rmq/consumer.py:228-257 | a consumer event touches the health state iff it catches a channel error, and then only sets DEGRADED |
| ConsumerHealth.ConsumerRefers | fastapi_app/rmq/consumer.py:193-257 | a consumer event sets the reference iff it opens a channel, clears it iff it catches an exception, and otherwise leaves it, also at the end of the stream |
| ConsumerHealth.HistoryComplete | fastapi_app/rmq/consumer.py:228-233 | over a joint run the consumer wrote DEGRADED once per channel error it caught, and the history holds these writes and the probes that ended, nothing else |
| Publisher.NothingLeaks | fastapi_app/rmq/publisher.py:25-47 | for any interleaving every connection and channel but the cached ones is closed, an open cached channel is on the open cached connection, and one caller at most is inside the lock |
| Publisher.AtMostOneOpen | fastapi_app/rmq/publisher.py:25-47 | at most one connection and one channel are open |
| Publisher.ReturnedChannelUsable | fastapi_app/rmq/publisher.py:30-47 | a returned channel is open, cached and on the open cached connection at the moment of return |
| Publisher.ReturnsUnlessFailed | fastapi_app/rmq/publisher.py:30-47 | a call hands out a channel in exactly the event in which it leaves without failing or being cancelled |
| Publisher.OpenedAndClosedBy | fastapi_app/rmq/publisher.py:38-96 | which events open and close a given connection and a given channel, and that no other does |
| Publisher.CloseReturnsAllClosed | fastapi_app/rmq/publisher.py:89-96 | close() leaves everything closed after awaiting a connection's close iff that connection is still the cached one or the cached one is not open |
| Publisher.CloseWithoutConnection | fastapi_app/rmq/publisher.py:89-96 | close() returns without awaiting a connection iff everything is closed; after awaiting a channel that channel is closed |
| Publisher.CloseCanBeOvertaken | fastapi_app/rmq/publisher.py:89-96 | a run in which a caller replaces the connection while close() is suspended on it |
| Publisher.GetAloneOutcome | fastapi_app/rmq/publisher.py:30-47 | an uninterrupted call ends with a usable channel on the usable cached connection iff nothing it needs raises, and changes nothing iff the cached channel was usable |
| Publisher.CloseAloneOutcome | fastapi_app/rmq/publisher.py:89-96 | an uninterrupted close leaves everything closed iff no close it has to await fails; the references stay |
| PublisherModule.Cache.GetChannel | fastapi_app/rmq/publisher.py:30-47 | the whole call in place: returns the open cached channel or raises, makes a connection iff the cached one is not usable and a channel iff the cached one is not usable, one at most of each |
| PublisherModule.Cache.Close | fastapi_app/rmq/publisher.py:89-96 | the whole call in place returns normally iff it leaves everything closed |
| WebSockets.PruneSucceedsIff | fastapi_app/core/store.py:29-30 | the removal loop succeeds iff each dead socket is listed at least as often as it is to be removed |
| WebSockets.PruneIsFilter | fastapi_app/core/store.py:29-30 | on a list without repetitions a successful removal loop keeps the others in order |
| WebSockets.PruneStopsAtAbsent | fastapi_app/core/store.py:29-30 | the removal loop removes exactly the dead sockets before the first that is not listed, and raises iff there is one |
| WebSockets.RaiseKeepsTheRest | fastapi_app/core/store.py:29-30 | a broadcast that raises leaves the failed sockets from the first absent one on listed, if they were |
| WebSockets.NoRepetitions | fastapi_app/main.py:151-158 | in every interleaving the list has no repetitions and no broadcast sends twice to a socket |
| WebSockets.ListMatchesEndpoints | fastapi_app/main.py:151-158 | a socket that has connected and not disconnected is listed unless a broadcast's send to it failed, also after its endpoint died otherwise; no other socket is listed |
| WebSockets.RaisesIffDeadSocketGone | fastapi_app/core/store.py:24-30 | a broadcast raises iff a socket whose send failed has left the list meanwhile |
| WebSockets.QuietBroadcast | fastapi_app/core/store.py:21-30 | if nothing else leaves the list meanwhile, a broadcast never raises, sends once to each listed socket in order, and leaves exactly the successful ones in order; the exact condition for one socket is SkippedIffSlipped |
| BroadcastSkips.SkippedIffSlipped | fastapi_app/core/store.py:24-26 | a socket listed throughout a broadcast is not sent to iff some event not the broadcast's own moved it from in front of the broadcast's position to behind it |
| BroadcastSkips.DisconnectSlipsIff | fastapi_app/main.py:157-158 | a departure makes a broadcast miss a socket iff that socket is the very next one and the leaving one stands before it |
| BroadcastSkips.DisconnectMakesBroadcastSkip | fastapi_app/core/store.py:24-26 | a run in which a disconnect makes a broadcast skip a socket that stays listed |
| BroadcastSkips.DisconnectMakesBroadcastRaise | fastapi_app/core/store.py:24-30 | a run in which a disconnect during a send that fails makes the broadcast raise |
| ConnectionList.Connections.Broadcast | fastapi_app/core/store.py:21-30 | uninterrupted, in place: sends to every listed socket in order, never raises for any list, and without repetitions leaves exactly the survivors |
| ConnectionList.Connections.SendToAll | fastapi_app/core/store.py:23-28 | one send per listed socket in order; the failures are collected in order |
| ConnectionList.Connections.DropDead | fastapi_app/core/store.py:29-30 | removes in place exactly the dead sockets before the first that is not listed, and raises iff there is one |
| ConnectionList.Connections.Append | fastapi_app/main.py:151-152 | appends one socket; a new one introduces no repetition |
| ConnectionList.Connections.Take | fastapi_app/main.py:157-158 | removes the first occurrence, or fails changing nothing |
| ConnectionList.UninterruptedOutcome | fastapi_app/core/store.py:23-30 | removing the failures of one round of sends succeeds and leaves its successes |
| ConnectionList.RoundAlone | fastapi_app/core/store.py:21-30 | run without other events in between, the interleaved broadcast ends as the two loops do: everyone sent to, exactly the survivors listed |
| Jobs.RecordsConsistent | fastapi_app/core/jobs.py:37-104 | in every run: no result before a terminal status, and a terminal status has a result and both times |
| Jobs.StatusNeverDecreases | fastapi_app/core/jobs.py:37-104 | pending, running, done, failed: the status never goes back, however jobs interleave |
| Jobs.OtherJobsUntouched | fastapi_app/core/jobs.py:37-104 | no event of one job changes another job's record |
| Jobs.DoneTurnsFailedIff | fastapi_app/core/jobs.py:49-62 | done turns to failed iff the job is asynchronous and its broadcast ends with a failed socket no longer listed; the record then holds that exception and its time |
| Jobs.DoneCanTurnFailed | fastapi_app/core/jobs.py:49-62 | a run in which a done job turns failed: a socket leaves during a send that then fails |
| Jobs.DoneIsFinalUndisturbed | fastapi_app/core/jobs.py:49-55 | done stays done as long as nothing but the job's own broadcast takes sockets off the list |
| Jobs.SyncDoneIsFinal | fastapi_app/core/jobs.py:67-88 | a finished synchronous job keeps its record in every continuation |
| JobHistories.SubmittedAs | fastapi_app/routers/jobs.py:29-39 | in any run a job is on the path its one submission asked for |
| JobHistories.BroadcastsIffAsync | fastapi_app/core/jobs.py:101-104 | a job broadcasts iff it was submitted as asynchronous and its work returned |
| JobHistories.SyncNeverBroadcasts | fastapi_app/core/jobs.py:101-102 | a job submitted as synchronous never broadcasts |
| JobHistories.StartRecorded | fastapi_app/core/jobs.py:42-43 | a record is past pending iff the job was marked running, and its start time is the one stamped |
| JobHistories.EndRecorded | fastapi_app/core/jobs.py:44-88 | done with what the work returned, failed with what it raised or with what came out of the broadcast; neither, also after a cancellation at work, as long as none of these happened |
| JobService.Store.SubmitJob | fastapi_app/routers/jobs.py:29-39 | stores exactly the pending record, shows it, and queues the job on the path asked for |
| JobService.Store.Begin | fastapi_app/core/jobs.py:42-43 | the record becomes running with its start time, and no other record changes |
| JobService.Store.RecordFailure | fastapi_app/core/jobs.py:56-62 | the whole failed record: status, error and finish time, the start time kept |
| JobService.Store.GetJobStatus | fastapi_app/routers/jobs.py:48-52 | answers iff the job is known, with its consistent record |
| JobService.Store.FinishAsync | fastapi_app/core/jobs.py:49-54 | writes the whole done record and starts the broadcast |
| JobService.Store.AsyncJob | fastapi_app/core/jobs.py:37-62 | the asynchronous path from start to end, uninterrupted: done whichever sends fail, every listed socket sent to in order, exactly those that answered still listed; if the steps raise, failed and no socket touched |
| JobService.Store.BlockingJob | fastapi_app/core/jobs.py:67-88 | the blocking path from start to end: the complete final record, and no socket touched |
| Tokens.EveryTokenHeadsChain | fastapi_app/auth/refresh.py:3-11 | over any serialised run every issued token heads a simple chain of one user whose only live token is its end |
| Tokens.SucceedsIffTip | fastapi_app/auth/refresh.py:4-6 | a rotation succeeds iff it is given the end of a chain |
| Tokens.RevokedForever | fastapi_app/auth/refresh.py:7-9 | a revoked token stays revoked and a token's user never changes |
| Tokens.LiveTokensConserved | fastapi_app/auth/refresh.py:7-9 | a user has as many live tokens as logins, whatever rotations are attempted |
| Tokens.TokenStore.RotateRefreshToken | fastapi_app/auth/refresh.py:3-11 | rejects and changes nothing, or revokes the token and issues a live successor of the same user |

## Left out

- ConsumerService.Consumer.DrainTimeout: the drain stops as soon as the cancels are sent; that `wait_for` first waits for the cancelled tasks is not modelled, so more interleavings are covered than occur.
- Health.HooksFindTheirTimes: says nothing of what hooks do after their first suspension, or of a hook that raises and so ends the checker.
- aio-pika internals, TCP, AMQP framing and exchange matching: the broker is abstract; the iterator's own nack of buffered messages on exit is taken together with the closing of its channel.
- Order within the queue and the order in which waiting tasks get slots: the queue is a set and any waiting task may be granted a free slot.
- A second cancellation of the consumer during its drain: the application cancels it once.
- JSON, UTF-8 and string formatting: a body is kept only as far as the processor branches on it.
- Real time and liveness: clocks are inputs, time-outs and sleeps may end at any point, and nothing claims that a handler or a probe ends.
- `_probe_new_connection` beyond its three findings: the connection it opens is its own and is closed in its `finally`.
- `publish` itself: it only serialises a body and sends it on the channel the cache returned.
- `lifespan` (`fastapi_app/main.py:55-88`): cancel and await consumer, then checker, then close the publisher; each part's own wind-down is modelled, their sequence is straight-line.
- `list_jobs`: it copies the records whose consistency is proved.
- Thread interleaving inside one dictionary update on the blocking path: each statement is one event.
- `core.store` and `fastapi_app.core.store` are taken to be one module, although `fastapi_app/core/jobs.py:18` and `fastapi_app/main.py:28` import it under both names.
- Job submission with a colliding UUID, and rotation with a generated token already in the store: excluded by freshness.
- Database isolation, rollback, and the `Depends` wiring around rotation: calls are atomic and serialised.
- JWT, OAuth, SQLAlchemy, Alembic, middleware, CORS, logging, users and the async demo routes: wiring code, not part of this model.
