# A verified model of the durable execution engine

The engine runs workflow code by replaying it over an append-only event log, and changes a
run only in transactions under that run's row lock. This project models that engine in Dafny
and proves what it promises. `dafny verify dfyconfig.toml` checks all of it.

## How it is laid out

**Replay and its cached twin.** A handler is a deterministic reactive machine: what it does
next is a function of what it observed so far (`WorkflowTypes.dfy`). `Replay.dfy` says what
replaying it over a history means, `DecisionLoop.dfy` is the replay loop as it is written
(counters, a map of queued deliveries, a feed that picks the smallest index next), proved to
return that decision. `ReplayMonotone.dfy` proves that a longer history only adds to a replay,
`GeneratedHistories.dfy` that histories written by the engine itself never raise a false alarm.
`LiveSession.dfy` is the session that keeps the handler alive, `LiveKnowledge.dfy` and
`LiveReplay.dfy` follow it event by event, `CacheAgreement.dfy` proves that it decides what a
full replay decides, and `CacheExactness.dfy` exactly when it may be believed. `RunCache.dfy`
and `StickyDecider.dfy` put it in a cache of limited size. `Parallel.dfy` is the loop behind
`ctx.all()`. What all of them tell the handler, and what it asks for in return, is read off the
events and its own calls in three files: `ReplayAnswers.dfy` says what every promise settles
with, `ReplayReadings.dfy` what calls are answered at once, and `ReplayCommands.dfy` what the
commands found say.

**The run store.** `RunTables.dfy` holds the tables as one transaction sees them and what every
run keeps; `CloseCascade.dfy` closes a run with everything below it and proves a closed form of
what becomes of every run; `FamilyTree.dfy` keeps continue-as-new chains and parent-child
families in order, and `FamilyOutcomes.dfy` reads off the logs what they come to;
`RunProgress.dfy` says what no transaction takes back; `RunStore.dfy` is the
store, one method a transaction. `StepDelivery.dfy` interleaves deliveries, crashes and
redeliveries of step tasks with those transactions, `TaskQueue.dfy` is the lease queue with its
janitor, `Timers.dfy` the timer scheduler over the store, and `RunLocks.dfy` the order in which
transactions lock run rows.

**The log.** `Projection.dfy` folds events into the read model; `Compaction.dfy` replaces a
prefix of the log by a snapshot of that fold.

**Time.** `Calendar.dfy` and `Cron.dfy` search for the next matching minute, `CronRules.dfy` says
what matching means on the clock and the calendar,
`ScheduleLedger.dfy` and `ScheduleManager.dfy` keep the schedules' trigger ledger over the run
store, `ScheduleInstants.dfy` says at which instants they fire and which are made up,
`ScheduleTurns.dfy` what a tick adds up to, and `ScheduleExamples.dfy` holds states in which the
manager departs from its documentation. `TokenBucket.dfy` limits rates.

## What is assumed

A transaction is one atomic step; transactions are serialised by the locks they take. Ids are
numbers: `step-N`, `timer-N` and `child-N` are N, and run rows are numbered in the order of
their creation, so that a parent's number is smaller than its child's. Lease tokens are drawn
fresh. Codecs and canonical encodings are the identity. Times are whole milliseconds and are
handed to the operations that read a clock. A handler that never comes to rest within its
turns hangs its worker: it decides nothing, and every statement about it says so.

## What the code does where its documentation says otherwise

- The live session is said to decide exactly what a replay decides. Its check of what it
  emitted looks only for step and timer ids and for the number of recorded times: not at the
  times, nor at a step's type or input or a timer's duration, nor at the order. So a session
  that another worker overtook can be believed, and complete with its own time
  (`CacheAgreement.StaleClockPassesTheCheck`) or where a replay refuses the history
  (`CacheExactness.OtherStepPassesTheCheck`). Given a history it can be fed and a handler that
  makes only calls it can resume after, what decides is whether the new events begin with the
  times and commands emitted, as they were emitted: then and only then its handler observes
  what a replay observes (`CacheExactness.AgreesExactlyWhenBegunAsEmitted`), and unless the
  handler swallows an integrity error it decides what the replay decides
  (`CacheExactness.DecidesWhenBegunAsEmitted`). Recording its decision ensures that
  (`CacheAgreement.RecordedDecisionFollows`), and the worker drops a session whose decision was
  not recorded (packages/worker/src/engine/task-handler.ts:285-306): both inputs are failures of
  the session's own contract, which that caller does not run into.
- A failed attempt is logged without looking at the run's status, so `step_attempt_failed` may
  follow a closing event. `ClosedMeansClosed` allows exactly that event. A later compaction that
  would prune such an attempt fails and changes nothing, because folding refuses an event after
  the closing one; it succeeds exactly when nothing it prunes follows the closing event
  (`Compaction.CompactionKeepsTheLog`).
- `all` with a catch-up window is said to start a run for every missed instant inside the
  window. When no instant lies in the window, the next one to come is passed over before it is
  due (`ScheduleExamples.AWindowLosesAnInstant`); `ScheduleInstants.WhenAnInstantPassesUnhandled`
  says exactly when.
- `buffer_one` is said to keep the latest trigger. It keeps the one handled last, which after a
  backfill can be an earlier instant (`ScheduleExamples.ABackfillHoldsTheEarlier`). The later of
  two stays held exactly when nothing was held or something earlier
  (`ScheduleTurns.KeepsTheLaterOnlyInOrder`). Ticks alone do keep the latest: while whatever is
  held lies before now and before its schedule's next instant, a turn holds the later one
  (`ScheduleManagers.ScheduleManager.FireOne`), and ticks, `create`, `pause` and `resume` leave it so.
- The schedules' `catchUp` is said to tick until nothing is due. It stops after a tick that
  reported fewer triggers than a batch, and a turn that comes to nothing (its instant is on the
  ledger or yet to come, or its schedule cannot be read) counts against the batch but is not
  reported. A tick that leaves something due makes it stop exactly when more of its turns came to
  nothing than it started of what was held back (`ScheduleManagers.ScheduleManager.Tick`); with a
  batch of one that is known beforehand (`ScheduleTurns.OneTurnIsEnoughUnlessMute`,
  `ScheduleExamples.AMuteTurnStopsTheCatchUp`). When every schedule can be read, no window loses
  an instant and the ledger holds no instant to come, nothing is due when it stops
  (`ScheduleManagers.ScheduleManager.CatchUp`).
- `nextCronTime` is said to give up when nothing matches within several years. In a zone of
  fixed offset it gives up only when nothing ever matches (`Cron.NextCronMinute`).

## Model

| member | source | states |
|---|---|---|
| `CommandMatching.CommandMatcher.Issue` | packages/core/src/workflow/command-matcher.ts:125-141 | an issued command is accepted, new, or refused as the command recorded at its position says, and nothing else moves |
| `CommandMatching.AcceptedExactlyWhenRepeated` | packages/core/src/workflow/command-matcher.ts:117-153 | code is never refused and leaves nothing unissued exactly when it issues every recorded command again, in the recorded order, before anything new |
| `DecisionLoop.ReplayContext.CompletedAt` | packages/core/src/workflow/decision-loop.ts:227-255 | a promise is released now if the feed has passed its event, otherwise queued at that event, and so stands where the reference machine puts it |
| `DecisionLoop.ReplayContext.Step` | packages/core/src/workflow/decision-loop.ts:395-434 | a step call has the effect and the answer of the reference machine: matched, settled at its first outcome, scheduled only when new; what it settles with is `ReplayAnswers.StepHears` |
| `DecisionLoop.ReplayContext.Sleep` | packages/core/src/workflow/decision-loop.ts:435-463 | the same for timers; a duration that is no duration rejects without a timer |
| `DecisionLoop.ReplayContext.WaitForSignal` | packages/core/src/workflow/decision-loop.ts:464-487 | the nth wait for a name is settled by the nth signal of that name |
| `DecisionLoop.ReplayContext.ExecuteChild` | packages/core/src/workflow/decision-loop.ts:309-364 | child calls are counted, limited, matched and settled as in the reference machine |
| `DecisionLoop.ReplayContext.Select` | packages/core/src/workflow/decision-loop.ts:488-510 | the branch settled earliest in the history wins, whatever the order of the branches; the result is settled when that branch is |
| `DecisionLoop.ReplayContext.DecidePatch` | packages/core/src/workflow/decision-loop.ts:202-225 | a patch answers the same for the whole replay: new path when recorded or reached past the recorded commands, old path before that |
| `DecisionLoop.ReplayContext.Now` | packages/core/src/workflow/context-values.ts:36-46 | the nth clock call answers the nth recorded time, else a fresh time that is recorded |
| `DecisionLoop.ReplayContext.ContinueWith` | packages/core/src/workflow/decision-loop.ts:517-523 | the first request to continue as new counts |
| `DecisionLoop.ReplayContext.Call` | packages/core/src/workflow/decision-loop.ts:306-540 | every context call acts and answers as the reference machine does |
| `DecisionLoop.ReplayContext.DrainToQuiescence` | packages/core/src/workflow/decision-loop.ts:136-143 | ready promises resume the handler first in, first out, until it waits or its turns run out |
| `DecisionLoop.ReplayContext.NextDelivery` | packages/core/src/workflow/decision-loop.ts:259-264 | the smallest history index that has queued releases |
| `DecisionLoop.ReplayContext.FeedHistory` | packages/core/src/workflow/decision-loop.ts:257-276 | feeding terminates, delivers at strictly increasing positions, and ends in the state the reference reaches by delivering every event |
| `DecisionLoop.RunDecisionLoop` | packages/core/src/workflow/decision-loop.ts:571-787 | the loop as written, with counters, queues and early exits, returns the decision the reference defines for the history |
| `ReplayFacts.RunStops` | packages/core/src/workflow/decision-loop.ts:257-276 | after any number of events the replay is at rest or hung: every drain ends quiescent |
| `ReplayFacts.DuesFoundRun` | packages/core/src/workflow/decision-loop.ts:401-421 | every promise is due exactly where the history first settles what it waits for, and nowhere else |
| `ReplayFacts.SkipTo` | packages/core/src/workflow/decision-loop.ts:257-268 | stretches of events that settle nothing can be skipped, which is what lets the feed jump to the next queued index |
| `ReplayMonotone.FindStable` | packages/core/src/workflow/decision-loop.ts:444-450 | a completion found in a history stays the one found; one found only later lies past the shorter history |
| `ReplayMonotone.WinnerAgrees` | packages/core/src/workflow/decision-loop.ts:494-506 | a select that has a winner keeps it on any longer history; a later winner lies past the shorter one |
| `ReplayMonotone.ReplayIsMonotone` | packages/core/src/workflow/decision-loop.ts:202-304 | on a history that continues another, the handler observes first all it observed on the shorter one, issues the same commands and gives the same patch, clock and select answers first, and a settlement stays |
| `GeneratedHistories.NoFalseAlarm` | packages/core/src/workflow/command-matcher.ts:125-155 | on every history built by recording one handler's decisions and appending outside completions in any order, replay raises no mismatch and leaves no recorded command unissued |
| `GeneratedHistories.RecordingContinues` | packages/core/src/workflow/command-events.ts:8-55 | a history that holds a decision's recorded commands continues that decision and covers all it found, so replay goes on from it |
| `GeneratedHistories.RecordingSettles` | packages/core/src/workflow/command-events.ts:8-55 | after a decision is recorded, a replay stops in the same state with nothing newly found and no alarm |
| `GeneratedHistories.DecidingAgainFindsNothing` | packages/core/src/workflow/decision-loop.ts:720-787 | fixpoint: deciding again right after a suspended decision was recorded suspends with no commands, at any later moment |
| `GeneratedHistories.AlarmFreeVerdict` | packages/core/src/workflow/decision-loop.ts:728-737 | on an alarm-free history a decision is refused only when the handler itself failed with an integrity error |
| `ReplayAnswers.RunHears` | packages/core/src/workflow/decision-loop.ts:285-511 | for every handler, history and number of events fed: whenever a promise resumes the handler, it does so once, and with what the first event for it among those fed says (a step's or child's value or error, an exhausted step's error by its number and type, the nth signal's payload, the first branch of a select to settle), where what it waits for is counted from the handler's own calls |
| `ReplayAnswers.StepHears` | packages/core/src/workflow/decision-loop.ts:395-434 | the nth step called resumes its caller with `v` exactly of the first outcome of step n, `StepCompleted(n, v)`, with the recorded error of `StepFailed`, and with the exhausted one naming n and its type |
| `ReplayAnswers.AnsweredExactlyWhenDelivered` | packages/core/src/workflow/decision-loop.ts:257-304 | where the replay comes to rest, a promise has resumed the handler if and only if the event for it is among those fed |
| `ReplayAnswers.DecidesAsSettled` | packages/core/src/workflow/decision-loop.ts:720-787 | a decision is what the handler asked for first: to continue as new, else what it settled with first, else nothing yet, with the commands found |
| `ReplayCommands.CommandsSayTheCalls` | packages/core/src/workflow/decision-loop.ts:309-463 | the commands found are in their order those of distinct calls the handler made, each with its call's type, input, policy and limits and the number of its kind; a timer is due its duration after a reading of the clock, a recorded time is the trigger's or a reading, a child is within the limit |
| `ReplayReadings.RunTells` | packages/core/src/workflow/decision-loop.ts:202-225 | every answer given at once is what the history's events and the handler's earlier calls make it: the nth time asked is the nth recorded and else a reading, the nth draw the nth of the generator, a patch is decided once and taken exactly when recorded or when no ordered command of the history is left, a child past the limit is refused |
| `LiveKnowledge.KnowledgeResolves` | packages/core/src/workflow/live-session.ts:110-134 | asking the session's maps resolves a wait exactly when, and as, searching the fed history does |
| `LiveKnowledge.NotifyReleases` | packages/core/src/workflow/live-session.ts:122-134 | waking the waiters of one event's key releases what a replay releases at that event, in creation order, and keeps the rest waiting |
| `LiveReplay.CallTracks` | packages/core/src/workflow/live-session.ts:188-255 | a call the session can resume after is answered as a replay answers it |
| `LiveReplay.DeliverTracks` | packages/core/src/workflow/live-session.ts:147-165 | delivering an event to a kept handler brings it where a replay of one more event is, or the session notices an unsupported call |
| `LiveReplay.FeedTracks` | packages/core/src/workflow/live-session.ts:315-350 | feeding a kept handler any stretch of events brings it where a replay of the whole history is |
| `LiveReplay.RebaseTracks` | packages/core/src/workflow/live-session.ts:315-350 | a handler kept at the end of one history is at the right place of every history that continues it, and owes nothing |
| `LiveSessions.LiveSession.Register` | packages/core/src/workflow/live-session.ts:110-120 | a waiter is kept under its key unless it resolves at once |
| `LiveSessions.LiveSession.Notify` | packages/core/src/workflow/live-session.ts:122-134 | exactly the waiters that resolve leave the key's list, in order, and the answer says whether any did |
| `LiveSessions.LiveSession.CheckEmitted` | packages/core/src/workflow/live-session.ts:271-290 | the slice is accepted exactly when it records every emitted command by kind and id, and as many times as were emitted |
| `LiveSessions.LiveSession.Advance` | packages/core/src/workflow/live-session.ts:315-374 | the session as written, with maps, waiters and flags, does on every input what the pure session does: same result, same kept state |
| `CacheAgreement.FirstAdvanceAgrees` | packages/core/src/workflow/live-session.ts:315-374 | a new session fed any feedable history decides what a replay decides, or says it cannot, which it does only for a handler that makes a call it cannot resume after |
| `CacheAgreement.LaterAdvanceAgrees` | packages/core/src/workflow/live-session.ts:315-374 | a session kept since its last decision, fed a history that continues what it saw and records what it emitted, decides what a replay of the whole history decides, with the same exception |
| `CacheAgreement.RecordedContinuationIsAccepted` | packages/core/src/workflow/live-session.ts:271-290 | a true continuation always passes the session's check of what it emitted |
| `CacheAgreement.RecordedDecisionFollows` | packages/core/src/workflow/live-session.ts:271-350 | once a decision is recorded where it was made, every supported history that goes on from there may be fed to its session |
| `CacheAgreement.CacheAgreesOnEveryRun` | packages/core/src/sticky/sticky-decider.ts:69-161 | on every run built from recorded decisions and outside completions, a session kept from any earlier decision decides after any later moves what a full replay decides |
| `CacheAgreement.StaleClockPassesTheCheck` | packages/core/src/workflow/live-session.ts:271-290 | a concrete run on which the check, which only counts recorded times, accepts a history another worker wrote, and the session then completes with another time than a replay |
| `CacheExactness.AgreesExactlyWhenBegunAsEmitted` | packages/core/src/workflow/live-session.ts:271-374 | of a kept session fed any history that goes on from what it saw and passes its check: its handler observes what a replay observes if and only if the new events begin with the times and the commands it emitted, in their order and by type and input |
| `CacheExactness.DecidesWhenBegunAsEmitted` | packages/core/src/workflow/live-session.ts:315-374 | a session whose new events begin so decides what a replay of the whole history decides |
| `CacheExactness.EveryAdvanceDecides` | packages/core/src/workflow/live-session.ts:315-374 | a history handed over in any number of slices, each beginning with what the decision before found, is decided slice by slice as replays of its beginnings decide |
| `CacheExactness.KeptSessionHears` | packages/core/src/workflow/live-session.ts:315-374 | a kept handler whose new events begin as it emitted hears of every promise what the first event for it in the whole history says |
| `CacheExactness.FedSessionHears` | packages/core/src/workflow/live-session.ts:315-350 | so does a new session fed a history |
| `CacheExactness.RunIsAccounted` | packages/core/src/workflow/command-matcher.ts:125-141 | after any number of events a replay has issued the commands its trace shows, refused those the history records otherwise, and told the recorded times where there are some |
| `CacheExactness.EnoughIsRecorded` | packages/core/src/workflow/live-session.ts:277-290 | a slice that passes the check records at least as many commands as were emitted, because their ids are distinct |
| `CacheExactness.OtherStepPassesTheCheck` | packages/core/src/workflow/live-session.ts:277-290 | a concrete run on which a step recorded under the emitted id but of another type passes the check: the session completes, and a replay refuses the history |
| `RunCaches.EvictsLeastRecentlyUsed` | packages/core/src/sticky/run-cache.ts:81-92 | a full cache gives up exactly the entry used least recently; entries stay distinct, ordered by last use and within the limit |
| `RunCaches.RunCache.Get` | packages/core/src/sticky/run-cache.ts:62-79 | a hit becomes the most recent entry; an entry idle too long is dropped and counted; a miss changes only its counter |
| `RunCaches.RunCache.Set` | packages/core/src/sticky/run-cache.ts:81-92 | the value becomes the most recent entry of its run and the oldest entries give way to the limit |
| `StickyDeciders.StickyDecider.Decide` | packages/core/src/sticky/sticky-decider.ts:123-161 | from the cache, from a new session or from scratch, the decision is the one a replay gives (or a hang after a call no session resumes), and what stays cached stands at it; a cached session that refuses, whatever was cached, leads to a decision as right as a replay |
| `StickyDeciders.StickyDecider.ReplayFromScratch` | packages/core/src/sticky/sticky-decider.ts:91-120 | the same when nothing usable is cached; a handler whose new session cannot decide is remembered as uncacheable and replayed, and one remembered so is replayed without a session |
| `StickyDeciders.StickyDecider.Invalidate` | packages/core/src/sticky/sticky-decider.ts:163-167 | the run's session is gone, every other one is as it was, and the counter moves only if there was one |
| `Parallel.RunParallel` | packages/core/src/workflow/parallel.ts:28-71 | the result is every task's own outcome in its own slot, which is what the first event for that task in the history says, the first rejection under `all`, or an endless wait for tasks the history does not settle; its trace is the one the loop takes |
| `Parallel.TasksStartInOrder` | packages/core/src/workflow/parallel.ts:39-50 | each task is started at most once, in index order |
| `Parallel.NeverTooMany` | packages/core/src/workflow/parallel.ts:39-50 | tasks in flight never exceed the limit, are distinct started ones, and the others have settled, one an iteration |
| `Parallel.EarliestSettles` | packages/core/src/workflow/decision-loop.ts:285-304 | the task that settles is the running one the history settles first |
| `Parallel.StartsWhatItMay` | packages/core/src/workflow/parallel.ts:39-50 | the loop waits only when all tasks are started or the limit is reached |
| `Parallel.ChosenStays` | packages/core/src/workflow/decision-loop.ts:285-304 | the choice among running tasks stays the same on any longer history |
| `Parallel.TraceGoesOn` | packages/core/src/workflow/parallel.ts:28-71 | on a longer history the loop starts and settles the same tasks in the same order before anything new |
| `Parallel.OneTrace` | packages/core/src/workflow/parallel.ts:28-71 | of two runs of the loop on one history one begins the other, so the trace is unique |
| `Projections.FoldConcat` | packages/core/src/run/projection.ts:94-99 | folding in two parts is folding the whole |
| `Projections.FoldsExactlyWhen` | packages/core/src/run/projection.ts:56-92 | a log folds exactly when it is gapless and nothing follows its closing event; the result's number and state are then determined |
| `Projections.FoldSays` | packages/core/src/run/projection.ts:56-92 | what a fold leaves: state, result or error and closing time as the closing event says them, and without one all of them as they were |
| `Projections.FoldTakesTheInput` | packages/core/src/run/projection.ts:56-92 | the input a fold leaves is that of the last start event, and without one what it was |
| `Compaction.RunHistory.ReadCurrentSequence` | packages/core/src/event-store/event-store.ts:60-69 | the sequence number is the length of the whole logical log, whatever was pruned |
| `Compaction.RunHistory.Append` | packages/core/src/event-store/event-store.ts:77-115 | all events are appended with consecutive numbers when the caller's number is the log's length; otherwise a conflict and nothing written |
| `Compaction.RunHistory.ReadAfter` | packages/core/src/event-store/event-store.ts:132-154 | reading gives the log after a number, as far as it was not pruned |
| `Compaction.RunHistory.CompactRun` | packages/core/src/compaction/history-compactor.ts:98-151 | an open run is left alone; a closed one is compacted to its tail, or nothing changes when folding fails |
| `Compaction.StoredHistoryMeansTheLog` | packages/core/src/compaction/history-compactor.ts:98-151 | snapshot and rest stand for the whole log: same next sequence number, same fold |
| `Compaction.CompactionKeepsTheLog` | packages/core/src/compaction/history-compactor.ts:98-151 | one compaction keeps what the stored log stands for, and fails exactly when an event follows the closing one among those pruned |
| `Compaction.CompactionIsInvisible` | packages/core/src/compaction/history-compactor.ts:98-176 | any series of compactions with any tails leaves the next sequence number and the fold as they were, and prunedEventCount equal to the snapshot's number |
| `Compaction.CompactionIsIdempotent` | packages/core/src/compaction/history-compactor.ts:98-151 | compacting again with the same tail changes nothing |
| `CloseCascade.RunRows.NotifyParent` | packages/core/src/cancellation/close-run.ts:62-109 | an open parent gets one outcome event and one workflow task, and no other run changes; what the event says is `FamilyOutcomes.OutcomeSaysHowItEnded` |
| `FamilyOutcomes.ParentIsToldAndWoken` | packages/core/src/cancellation/close-run.ts:62-109 | an open parent of a closing run that does not continue as new gets one event at the end of its log, the outcome of exactly that closing event under the child's name, and one workflow task |
| `CloseCascade.RunRows.CloseRunIfTerminal` | packages/core/src/cancellation/close-run.ts:160-176 | the recursion ends (each child is newer than its parent), and every run of the store is afterwards what the closed form says of it |
| `CloseCascade.RunRows.CloseChild` | packages/core/src/cancellation/close-run.ts:117-148 | one open child is terminated with everything below it, asked to cancel, or left alone, by its policy |
| `FamilyOutcomes.CascadeReaches` | packages/core/src/cancellation/close-run.ts:117-176 | every descendant reached through open `terminate` links is TERMINATED by one `run_terminated`, its first closing event, and has no waiting task; every open `cancel` child of a closed run is asked once and woken, unless it was asked before; no other descendant changes |
| `FamilyTree.ClosingKeepsFamilies` | packages/core/src/cancellation/close-run.ts:62-176 | closing a run and all that goes with it keeps every chain and family in order |
| `FamilyTree.OneEndPerChain` | packages/core/src/continuation/continued-run.ts:30-89 | every run of a chain but its last continued as new: two runs of which neither did are one |
| `FamilyTree.EarlierInChain` | packages/core/src/continuation/continued-run.ts:47-66 | a chain holds one run of every smaller index, each continued as new |
| `FamilyTree.ChainSharesItsLimits` | packages/core/src/continuation/continued-run.ts:47-71 | one execution deadline, parent, close policy and schedule for the whole chain |
| `FamilyTree.OutcomeExactlyWhenChainEnded` | packages/core/src/cancellation/close-run.ts:62-109 | an open parent's log holds exactly one outcome of a child when the last run of the child's chain is closed, and none before |
| `FamilyOutcomes.OutcomeSaysHowItEnded` | packages/core/src/cancellation/close-run.ts:28-109 | in every store in order, an open parent's log holds an outcome of a child if and only if the last run of the child's chain was closed by the event it is the outcome of: completed with the same value, failed with the same error, or timed out, cancelled or terminated with the error named for it |
| `FamilyOutcomes.ContinuesWithWhatWasAsked` | packages/core/src/continuation/continued-run.ts:30-89 | a run that continues another begins with the other's type and with the input its `run_continued_as_new` asked for, under the same run limit and deadline |
| `FamilyTree.FirstKeepsStore` | packages/core/src/children/child-runs.ts:14-74 | creating the first run of a chain, child or not, keeps the whole store in order |
| `FamilyTree.ContinuedReady` | packages/core/src/continuation/continued-run.ts:30-89 | a run that continues as new, joined by its successor, leaves the store ready for the closing |
| `FamilyTree.UpdateKeepsStore` | packages/core/src/idempotency/recorder.ts:221-258 | a transaction on one run's own tables keeps the whole store in order |
| `RunStores.RunStore.StartRun` | packages/core/src/schedules/schedule-manager.ts:285-333 | the store gains one open run, first of a chain of its own: its log is the start event with its type and input, its timers those of its limits, its one task the first workflow task |
| `RunStores.RunStore.RecordStepResult` | packages/core/src/idempotency/recorder.ts:221-258 | a result is recorded once, never on a closed run, with its event; later callers learn the first outcome |
| `RunStores.RunStore.RecordFailure` | packages/core/src/retry/attempt-log.ts:45-78 | each attempt is logged once, on a closed run too, and nothing else changes |
| `RunStores.RunStore.SendSignal` | packages/core/src/signals/signal-service.ts:116-158 | an open run gets the signal event and a workflow task; a closed run refuses and nothing changes |
| `RunStores.RunStore.CancelRun` | packages/core/src/cancellation/request-cancellation.ts:15-36 | an open run gets one `cancel_requested` and one task; asking again writes nothing; a closed run refuses |
| `RunStores.RunStore.TerminateRun` | packages/core/src/cancellation/run-control.ts:118-127 | an open run is TERMINATED with its whole cascade; a closed run refuses and nothing changes |
| `RunStores.RunStore.CreateChild` | packages/core/src/children/child-runs.ts:14-74 | a child is created once for its name: one new row linked to its parent with its policy, its start event by type and input, a task and its limits' timers; a second creation writes nothing |
| `RunStores.RunStore.ContinueRun` | packages/core/src/continuation/continued-run.ts:30-89 | the predecessor closes as CONTINUED_AS_NEW and its successor is open in the same step: started by the predecessor's type with the input asked for, next in the chain, under the same parent, policy, schedule, run limit and deadline, with a task; every other run is what the closed form of the closing says |
| `RunStores.RunStore.RecordWorkflowTaskResult` | packages/core/src/idempotency/recorder.ts:259-382 | a decision is recorded once per task, at the sequence number it was computed from, never on a closed run, and entirely or not at all: every event reads back as its command, every timer started has its row, every new child is what its command says, and the run ends as the last command says; a repetition gets the recorded range; no result is taken back and no closed run reopened, in any run |
| `RunStores.NoTimerIsLost` | packages/core/src/idempotency/recorder.ts:348-354 | in every reachable store, a timer that a run's log starts has its row, due when it was first started to be, and pending as long as the run is open and its log holds no firing of it |
| `RunStores.RunStore.CloseWith` | packages/core/src/cancellation/close-run.ts:160-176 | the closing event is appended, and every run is afterwards what the closed form of the cascade says |
| `RunStores.RunStore.FireTimer` | packages/core/src/timers/timer-scheduler.ts:172-216 | a due workflow timer is recorded in an open run's log and wakes it by a task, a limit closes it with its cascade by the event that names that limit, and on a closed run either is cancelled; no other timer changes |
| `RunStores.RunStore.CloseAtLimit` | packages/core/src/timeouts/run-timeouts.ts:113-132 | a run at its limit is TIMED_OUT by an event naming that limit, the limit's timer is fired, and every run is what the closed form of the cascade says |
| `RunStores.OneDecisionPerSequence` | packages/core/src/idempotency/recorder.ts:272-366 | of two decisions computed from one sequence number at most one appended an event |
| `RunStores.ResultMeansOneOutcome` | packages/core/src/idempotency/recorder.ts:231-253 | a step has a result row exactly when its log holds exactly one completion or failure, and never two |
| `RunStores.RowIsTheFold` | packages/core/src/run/projection-store.ts:163-174 | every row is the fold of its log up to its own number, and is terminal exactly when the log holds a closing event |
| `RunStores.ClosingSparesTheClosed` | packages/core/src/cancellation/close-run.ts:117-176 | a closing changes no run that was closed already, and no run's place |
| `StepDelivery.StepDeliveries.Lease` | packages/core/src/queue/task-queue.ts:179-236 | a delivery leases a waiting or leased task under a token of its own and begins by looking for a recorded result |
| `StepDelivery.StepDeliveries.LookUp` | packages/core/src/retry/step-task-processor.ts:222-225 | a recorded result leaves only the finishing to do; otherwise the step's code runs |
| `StepDelivery.StepDeliveries.RunStep` | packages/core/src/retry/step-task-processor.ts:240-316 | what is left to do after the step's code is the processor's sequence for that ending |
| `StepDelivery.StepDeliveries.TurnToFailure` | packages/core/src/retry/step-task-processor.ts:261-266 | a delivery whose recording or finishing fails goes on as a failed attempt does |
| `StepDelivery.StepDeliveries.Log` | packages/core/src/retry/step-task-processor.ts:268-277 | the attempt's failure is appended once, to an open or a closed run |
| `StepDelivery.StepDeliveries.RecordNext` | packages/core/src/retry/step-task-processor.ts:248-260 | the outcome is recorded unless the run is closed or has one, and finishing is allowed from then on |
| `StepDelivery.StepDeliveries.FinishNext` | packages/worker/src/worker.ts:353-382 | the task is finished exactly when the lease is still the delivery's, by the processor and by the worker after it |
| `StepDelivery.StepDeliveries.GiveBackNext` | packages/core/src/retry/step-task-processor.ts:268-275 | the task waits again exactly when the lease was still the delivery's |
| `StepDelivery.StepDeliveries.BuryNext` | packages/core/src/retry/dead-letters.ts:192-212 | the exhausted outcome is recorded and the task finished in one transaction, or neither |
| `StepDelivery.PlansAreSafe` | packages/core/src/retry/step-task-processor.ts:240-316 | whatever the step's code did, the processor's sequence finishes no task before its outcome is recorded or its lease is gone |
| `StepDelivery.PlansRecordTheEnding` | packages/core/src/retry/step-task-processor.ts:240-316 | a delivery records what its step returned and nothing else, the error of a failure that is not tried again, buries that of the last attempt, and logs a failed attempt exactly when one failed |
| `StepDelivery.StepDeliveries.Process` | packages/core/src/retry/step-task-processor.ts:214-316 | a delivery from its first transaction to its last, when none comes between: a step with a result is only finished; else the log of an open run gains the failed attempt and the outcome the code ended with, `exhausted` exactly when no attempt is left, and the task is finished, given back or left as the lease allows |
| `StepDelivery.StepDeliveries.NothingLost` | packages/core/src/retry/step-task-processor.ts:214-316 | in every reachable state of leases, crashes, redeliveries and store transactions, a scheduled step of an open run without outcome has a task that waits, is leased or is quarantined |
| `StepDelivery.StepDeliveries.Meanwhile` | packages/core/src/retry/step-task-processor.ts:214-316 | any transaction of the store, on any run, may come between the deliveries' steps: what its contract promises is enough for them to stay in order |
| `StepDelivery.RecordDecisionMeanwhile` | packages/core/src/idempotency/recorder.ts:259-382 | a decision recorded while deliveries are under way, whatever becomes of it, loses no step |
| `RunProgress.AdvancesOn` | packages/core/src/cancellation/close-run.ts:117-176 | taking back no result, reopening no run and finishing only waiting tasks of closed runs carries over from one transaction to the next |
| `RunProgress.ClosingAdvances` | packages/core/src/cancellation/close-run.ts:117-176 | closing runs takes back no result, reopens no run and finishes only waiting tasks of closed runs |
| `RunStores.DecisionAdvances` | packages/core/src/idempotency/recorder.ts:289-366 | nor does recording a whole decision, command after command |
| `RunLocks.LockTable.Request` | packages/core/src/children/run-locks.ts:21-54 | a transaction asks for any row first and then for rows it holds, again, or children of such rows |
| `RunLocks.LockTable.Grant` | packages/core/src/children/run-locks.ts:28-54 | a row goes to one transaction at a time, and the lock order is kept |
| `RunLocks.LockTable.WaitsDownwards` | packages/core/src/children/run-locks.ts:21-54 | who waits, waits for a transaction whose first lock is below its own first lock |
| `RunLocks.LockTable.NoDeadlock` | packages/core/src/children/run-locks.ts:21-54 | no chain of waiting transactions comes back to where it began, in any reachable lock state, with rows locked again included |
| `RunLocks.PoliciesKeepTo` | packages/core/src/cancellation/close-run.ts:117-148 | the whole cascade below a locked run locks only rows it holds or children of rows it holds |
| `RunLocks.ClosingKeepsTo` | packages/core/src/cancellation/close-run.ts:87-90 | closing a run locks its parent, itself, its parent again and what its policies lock: after the first, always rows it holds or children of such rows |
| `RunLocks.KeepingToMayBeRequested` | packages/core/src/children/run-locks.ts:21-54 | a sequence of locks that keeps to what is held can be requested from the lock table in its order |
| `RunLocks.ClosingMayBeRequested` | packages/core/src/cancellation/close-run.ts:87-148 | every lock a closing takes, with its whole cascade, is one the lock table lets it ask for |
| `Timers.MonotonicClock.Now` | packages/core/src/timers/monotonic-clock.ts:25-33 | the latest reading so far is served, and readings that went back are counted |
| `Timers.AnswersAreLatest` | packages/core/src/timers/monotonic-clock.ts:20-41 | every answer is at least every reading so far and is one of them |
| `Timers.AnswersNeverGoBack` | packages/core/src/timers/monotonic-clock.ts:20-41 | answers never go back, whatever the source does |
| `Timers.TimerScheduler.FireNext` | packages/core/src/timers/timer-scheduler.ts:151-244 | the pending timer first in (fireAt, id) order is handled if it is due: fired on an open run, whose log says so, cancelled on a closed one, and no other timer row changes |
| `Timers.EarlierIsHandledFirst` | packages/core/src/timers/timer-scheduler.ts:156-164 | timers are handled by the time they are due and then by their names, and none still pending is due before one handled |
| `Timers.TimerScheduler.Tick` | packages/core/src/timers/timer-scheduler.ts:246-262 | at most a batch is handled, in order and each once, by one reading; a tick that is not full leaves nothing due, and every timer an open run's log started to be due by then has fired, as the same log says |
| `Timers.TimerScheduler.CatchUp` | packages/core/src/timers/timer-scheduler.ts:280-293 | run alone it ends for every source of readings, leaves nothing due at its last reading, so that every timer recorded to be due by then on an open run has fired, and handles timers in order across ticks |
| `Timers.FiredExactlyOnce` | packages/core/src/timers/timer-scheduler.ts:190-208 | a workflow timer is FIRED exactly when its log holds one firing, never two, and never before it is due |
| `Timers.NothingDueMeansAllFired` | packages/core/src/timers/timer-scheduler.ts:246-262 | no timer is lost: where nothing is due, every timer that an open run's log started to be due by then has fired in that log |
| `Calendar.CalendarFollowsItsRules` | packages/core/src/schedules/cron.ts:198-215 | the calendar fields are read in starts at 1 January 1970, a Thursday, and each day follows the one before by the month lengths and leap rule |
| `Calendar.CalendarRepeats` | packages/core/src/schedules/cron.ts:198-215 | dates and weekdays repeat every 146,097 days, which are 20,871 whole weeks |
| `Calendar.YearStartFormula` | packages/core/src/schedules/cron.ts:198-215 | a year begins after 365 days a year and one for every fourth, but not hundredth, but four-hundredth year before it |
| `Cron.AddPart` | packages/core/src/schedules/cron.ts:123-125 | a part adds exactly the values reached from its start in whole steps up to its end |
| `Cron.ParseField` | packages/core/src/schedules/cron.ts:90-128 | a field is read exactly when no part stands still, runs backwards or leaves the range, and yields exactly the values its parts name |
| `Cron.ParseCron` | packages/core/src/schedules/cron.ts:153-188 | an expression is read exactly when it has five readable fields; day 7 is Sunday; a field restricts days unless it begins with a star |
| `Cron.NextCronMinute` | packages/core/src/schedules/cron.ts:217-250 | the least matching minute after the argument; the 200,000 steps run out only when no minute ever matches; what matching means is `CronRules.MatchesOnTheClock` and `CronRules.DayFieldsComeTogether` |
| `Cron.NextCronTime` | packages/core/src/schedules/cron.ts:217-250 | the least matching instant strictly after the argument, and none only when no later instant matches |
| `CronRules.MatchesOnTheClock` | packages/core/src/schedules/cron.ts:198-224 | an instant matches exactly when it is a whole minute whose minute, hour, month and day on the zone's clock and calendar are in the fields; with both day fields restricted one of them is enough, and with one free the other decides |
| `CronRules.DayFieldsComeTogether` | packages/core/src/schedules/cron.ts:217-224 | a schedule that restricts dates and weekdays matches exactly where the same schedule with free weekdays or the one with free dates does; with one of them free it matches exactly where both do |
| `CronRules.NextIsTheEarlier` | packages/core/src/schedules/cron.ts:217-250 | what `Cron.NextCronTime` answers for a schedule that restricts both is the earlier of what it answers for the two schedules that restrict one |
| `CronRules.ExpressionMatches` | packages/core/src/schedules/cron.ts:153-224 | an expression that is read matches an instant exactly when the parts of its five fields name what clock and calendar show there, Sunday as 0 or 7, with the either-or of restricted day fields |
| `Cron.CronTimesBetween` | packages/core/src/schedules/cron.ts:256-273 | every matching instant of the range in order, up to the limit |
| `Cron.NeverAgain` | packages/core/src/schedules/cron.ts:217-250 | after a whole calendar cycle without a match nothing ever matches |
| `Cron.MatchesAgain` | packages/core/src/schedules/cron.ts:217-250 | a schedule that matches once matches again after any time |
| `ScheduleLedger.OneBufferedTrigger` | packages/core/src/schedules/schedule-manager.ts:379-393 | a trigger is buffered exactly when its schedule holds back that instant |
| `ScheduleLedger.RunsMoveOn` | packages/core/src/continuation/continued-run.ts:47-65 | whatever the run store's transactions do, continue-as-new included, a schedule that forbids overlaps has at most one open run and every started trigger owns its run |
| `ScheduleManagers.ScheduleManager.StaysValid` | packages/core/src/continuation/continued-run.ts:47-65 | whatever other transactions do to the runs between the manager's own, its ledger, rows and times stay in order |
| `ScheduleLedger.StartedIsOk` | packages/core/src/schedules/schedule-manager.ts:372-378 | starting an unheard-of instant keeps the ledger in order and adds its only owner |
| `ScheduleLedger.HeldBackIsOk` | packages/core/src/schedules/schedule-manager.ts:379-393 | holding an instant back skips the one held back before and keeps the ledger in order |
| `ScheduleLedger.DrainedIsOk` | packages/core/src/schedules/schedule-manager.ts:399-429 | starting the instant held back keeps the ledger in order |
| `ScheduleLedger.RunsWhatTheScheduleSays` | packages/core/src/schedules/schedule-manager.ts:285-330 | in every reachable state, the run of a started trigger is the first of a chain of its schedule and began with the schedule's workflow type and input |
| `ScheduleManagers.ScheduleManager.HandleTrigger` | packages/core/src/schedules/schedule-manager.ts:359-397 | an instant is handled once: started with the schedule's type and input, held back or skipped by the overlap policy, and a known one left alone |
| `ScheduleManagers.ScheduleManager.DrainNextBuffer` | packages/core/src/schedules/schedule-manager.ts:399-429 | the earliest instant held back by an active schedule with no open run is started, and no longer held back |
| `ScheduleManagers.ScheduleManager.FireNextDue` | packages/core/src/schedules/schedule-manager.ts:431-471 | the active schedule due first is handled at the instant its catch-up policy chooses and waits for the next one; an unreadable one is ERRORED |
| `ScheduleInstants.LatestInstantUntil` | packages/core/src/schedules/schedule-manager.ts:223-232 | the last instant of the schedule up to now |
| `ScheduleInstants.CatchUpInstant` | packages/core/src/schedules/schedule-manager.ts:234-244 | the latest missed instant, the one due, or the first the window still holds |
| `ScheduleInstants.CoverageGoesOn` | packages/core/src/schedules/schedule-manager.ts:443-461 | a schedule that makes up for all instants without a window has a trigger for every instant since it was created or resumed, up to the next one due |
| `ScheduleInstants.WhenAnInstantPassesUnhandled` | packages/core/src/schedules/schedule-manager.ts:447-461 | the chosen instant lies in the future, and passes unhandled, exactly when the schedule is due from before its window and no instant lies in the window |
| `ScheduleExamples.AWindowLosesAnInstant` | packages/core/src/schedules/schedule-manager.ts:447-461 | a concrete schedule that passes over an instant before it is due |
| `ScheduleTurns.KeepsTheLaterOnlyInOrder` | packages/core/src/schedules/schedule-manager.ts:379-393 | an instant held back is what is held afterwards, the one before it is skipped, and so the later of the two stays held if and only if nothing was held or something earlier |
| `ScheduleManagers.ScheduleManager.FireOne` | packages/core/src/schedules/schedule-manager.ts:431-471 | a turn handles the schedule due first and reports exactly when it can be read and the instant it is caught up with has come and is not on the ledger; while what is held lies in the past, it holds the later instant |
| `ScheduleManagers.ScheduleManager.DrainBuffers` | packages/core/src/schedules/schedule-manager.ts:495-502 | exactly what was held back by active schedules with no open run is started, each once, and nothing else of the rows changes |
| `ScheduleManagers.ScheduleManager.Tick` | packages/core/src/schedules/schedule-manager.ts:493-521 | what could be started of the instants held back is, first; then schedules are handled, the one due first first, and each report is of an instant its schedule was due for that was not on the ledger; no trigger is reported twice, a tick of fewer turns than a batch leaves nothing due, and what is held back stays in the past |
| `ScheduleTurns.OneTurnIsEnoughUnlessMute` | packages/core/src/schedules/schedule-manager.ts:505-521 | a tick of one turn reports nothing and leaves something due if and only if nothing held back could start, the turn of the schedule due first comes to nothing, and something is due after it |
| `ScheduleTurns.LongestDueComesFirst` | packages/core/src/schedules/schedule-manager.ts:431-441 | the schedule a turn handles is active, its time has come, and no active schedule waits from an earlier instant; nothing is due exactly when no active schedule's time has come |
| `ScheduleManagers.ScheduleManager.CatchUp` | packages/core/src/schedules/schedule-manager.ts:620-629 | when it stops nothing is due, if every schedule can be read, no window loses an instant and the ledger holds no instant to come; with a batch of one it stops too early exactly when the tick begins mute |
| `ScheduleExamples.AMuteTurnStopsTheCatchUp` | packages/core/src/schedules/schedule-manager.ts:505-521 | a concrete state of two schedules, one started ahead by a backfill, in which a tick begins mute |
| `ScheduleExamples.ABackfillHoldsTheEarlier` | packages/core/src/schedules/schedule-manager.ts:379-393 | a concrete state in which a backfill of an earlier instant takes the place of the later one held back, which is skipped |
| `ScheduleManagers.ScheduleManager.Create` | packages/core/src/schedules/schedule-manager.ts:524-569 | the schedule waits for its first instant after its start; one that never fires again is refused |
| `ScheduleManagers.ScheduleManager.Pause` | packages/core/src/schedules/schedule-manager.ts:580-589 | the schedule is PAUSED, with its next instant and what it holds back as they were |
| `ScheduleManagers.ScheduleManager.Resume` | packages/core/src/schedules/schedule-manager.ts:591-616 | it fires again from the first instant after now; an unreadable one is ERRORED |
| `ScheduleManagers.ScheduleManager.Backfill` | packages/core/src/schedules/schedule-manager.ts:631-649 | every instant of the range (up to 10,000) is on the ledger afterwards, and only instants that were not are reported |
| `TaskQueues.TaskQueue.Dequeue` | packages/core/src/queue/task-queue.ts:179-236 | the first deliverable unlocked tasks up to the limit are taken in order; each is leased under a fresh token of its own or, when its losses reach the threshold, parked; no other row changes |
| `TaskQueues.TaskQueue.NobodyIsPassedOver` | packages/core/src/queue/task-queue.ts:179-215 | what a dequeue takes was due in its queue, unlocked and no decision another worker keeps; of such tasks only younger ones are left, and none below the limit; each lease is on its row until the time promised, with one more attempt |
| `TaskQueues.TaskQueue.Ack` | packages/core/src/queue/task-queue.ts:238-246 | applied exactly for the current lease, which completes the task; a stale token changes nothing |
| `TaskQueues.TaskQueue.Nack` | packages/core/src/queue/task-queue.ts:248-258 | applied exactly for the current lease; the task waits again with its losses kept |
| `TaskQueues.TaskQueue.Quarantine` | packages/core/src/queue/task-queue.ts:260-270 | applied exactly for the current lease; the task is parked |
| `TaskQueues.TaskQueue.Extend` | packages/core/src/queue/task-queue.ts:272-285 | applied exactly for a current lease that has not run out |
| `TaskQueues.TaskQueue.ReclaimOrphanedLeases` | packages/core/src/recovery/janitor.ts:207-243 | exactly the unlocked tasks whose lease ran out are taken back, with one more loss, and parked at the threshold |
| `TaskQueues.TaskQueue.Release` | packages/core/src/recovery/janitor.ts:266-276 | exactly a parked task waits again, with its losses forgotten |
| `TaskQueues.TaskQueue.CurrentIsHolder` | packages/core/src/queue/task-queue.ts:238-285 | the token on a row is current exactly when the record of events says that delivery holds the task |
| `TaskQueues.DeliveriesAreSeparated` | packages/core/src/queue/task-queue.ts:179-285 | between two deliveries of a task the first ended by a nack, a worker's quarantine or an expiry, never by an ack; if it parked the task, an operator released it in between |
| `TaskQueues.NoLeaseIsLostEarly` | packages/core/src/recovery/janitor.ts:207-230 | a lease is lost only at or after the time its holder was last promised |
| `TaskQueues.AckedIsFinal` | packages/core/src/queue/task-queue.ts:238-246 | after an ack nothing ever happens to the task again |
| `TaskQueues.ParkedAtTheThreshold` | packages/core/src/recovery/janitor.ts:212-230 | a lost lease parks the task exactly when it is the threshold's loss since the last release |
| `TokenBuckets.RateBound` | packages/core/src/quota/token-bucket.ts:54-76 | over any stretch of calls for a key, with any clock and any other callers, at most burst + rate × (growth of the latest time seen) / 1000 are allowed |
| `TokenBuckets.TokensAreConserved` | packages/core/src/quota/token-bucket.ts:54-76 | allowed calls and remaining tokens never exceed the tokens there were and what the time added; the bucket's time is the latest time seen |
| `TokenBuckets.WaitingIsRewarded` | packages/core/src/quota/token-bucket.ts:66-76 | a refused caller that asks alone is allowed exactly from the promised wait on |
| `TokenBuckets.KeysAreIndependent` | packages/core/src/quota/token-bucket.ts:54-76 | a key fares exactly as if no other key were used |
| `TokenBuckets.RateLimiter.Take` | packages/core/src/quota/token-bucket.ts:55-76 | one call updates one bucket; allowed exactly when a token is there, with the wait and the remaining tokens as promised; a bad configuration changes nothing |
| `TokenBuckets.RateLimiter.Reset` | packages/core/src/quota/token-bucket.ts:78-80 | the key's next call finds a full bucket, and other keys are untouched |
| `TokenBuckets.BurstGoesAtOnce` | packages/core/src/quota/token-bucket.ts:57-66 | of any number of calls at one time for a key without a bucket, new or reset, exactly `burst` are allowed, or all if they are fewer |

## Left out

- Cancellation seen by the handler: `cancel_requested` in a replayed history, compensations and `whileCancelling`; the run store models the request and the closing.
- Query handlers, `deprecatePatch`, `random` and `uuid` with an override; the seeded draws are a fixed function of their counter.
- The sandbox around handlers: a handler is deterministic by its type.
- The number of turns one drain may take is a parameter (every value is covered); the host's event loop has no such bound.
- Error messages, stacks and causes beyond the name and message that are recorded.
- Folding that refuses an event after the closing one rolls the transaction back; `RecordWorkflowTaskResult` refuses such decisions before it writes, with the same effect on the store.
- The events of a decision are appended one by one within their transaction, so that the store is in order after each.
- Compaction is proved for one log (`Compaction.dfy`); the store's logs are the logical ones.
- Queue names, namespaces, trace parents, build ids of tasks and row timestamps that no decision reads.
- `retry/timeout.ts`: its transaction appends without closing the run, outside the transactional close path.
- Retry policy and backoff: how a failed attempt is classified is a choice of the environment.
- Requeueing dead letters, stalled-run recovery, sticky routing claims, and the `waiting_on` markers of runs.
- StepDelivery: when a lease expires is the environment's choice there; `TaskQueues` models the times.
- Rows that other schedulers hold locked are passed over by `skip locked`; `Dequeue` and the janitor model it, the timer and schedule ticks run alone.
- ScheduleManagers.ScheduleManager.CatchUp: takes as many readings of the clock as it is given; that it ends is not claimed, since a clock that moves on keeps bringing instants.
- Zones with daylight saving and the text layer of `Intl`; years before 100, for which the weekday of a date is read wrongly.
- The text of a cron field below its commas, dashes and slashes: numbers and names are given as values.
- Floating-point rounding in the token bucket: tokens are real numbers.
- HTTP, CLI, UI, migrations, metrics, tracing and logging.
