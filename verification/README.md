# A verified model of the Samsara alert service

This Dafny project models the parts of the service where a mistake costs a driver an
alert or gives one twice, and proves what they promise:

- **Durable video recovery** (`RecoveryTypes`, `VideoBackfill`, `CameraMedia`,
  `RecoveryStore`, `RecoveryWorker`, `RecoveryPlan`, `RecoverySteps`, `RecoveryRuns`,
  `RecoveryTheorems`, `RecoveryClaims`, `RecoveryLimits`). The job table and the worker are classes whose methods are proved
  against functions of the old table (`Applied`, `LockAll`, `Step`, `Plan`). Those same
  functions drive a state machine of whole runs: any number of workers, interleaved
  between any two outside calls, with lost writes, claims nobody heard of, steps that
  throw, and crashes.
- **Idempotent delivery** (`DeliveryLedger`, `Delivery`, `DeliveryTheorems`,
  `DriverSwitch`, `DriverSwitchRetries`, `DeliveryLimits`). `deliverEvent` is a method
  over a ledger object, proved against the function `Complete`; the theorems are about
  every sequence of calls, with failed ledger reads, lost ledger writes and crashes
  after any target. `Broadcast` joins it to the recovery it leaves behind.
- **The pollers' queue** (`AlertQueue`, `AlertQueueTheorems`, `AlertQueueLimits`,
  `AlertQueueOverlap`, `AlertQueueMemory`, `AlertQueueForgets`). One class for both pollers, one method per stretch of code
  between two awaits, in every interleaving.
- **The life of an event** (`EventLife`, `EventMemory`). The queue, the table of processed events and
  the delivery in one machine, over restarts that cut a delivery or a mark short.
- **Secrets** (`SecretsDigest`, `AppSecrets`, `AppSecretsTheorems`). Loading them, and
  the watch that restarts the service: its looks are cut at their two awaits, and any
  number of them may overlap.
- **Poll state** (`PollState`), **driver video** (`Compression`, `DriverVideo`), **routing**
  (`Routing`, `RoutingFindings`) and **the scrubber** (`Scrub`).

A database statement is one atomic change that lands or does not; a failed write leaves
its table as it was. Calls to Telegram, Samsara, ffmpeg, Redis and the database are
inputs of the methods, one answer per call, and the theorems hold for all of them. A
Telegram call that throws has delivered nothing. `hide` in a proof only keeps the
verifier from looking into a definition that the proof does not need.

## What the proofs found

- `deliverVideo` says that a group that already has its video can never get a second
  copy (`src/videoRecoveryWorker.js:189-191`). It can, once for each fault: the proved
  bound is one video plus one for each lost write, crash or throw on that job, and
  `RecoveryLimits.EveryLostWriteCostsAVideo` reaches it for every number of them. A
  message whose video was posted stays on the job when the write that removes it is lost.
- `reschedule` and `finish` go by the id alone, so everything rests on a claimer
  finishing or dying within `STALE_LOCK_MS`. Under any longer lease a slow holder can
  double a video without any fault: `RecoveryLimits.LeaseIsExact`.
- Footage is asked for once, unless Samsara answers the request with media at once:
  the write after the delivery does not record the request, so it is made again while
  a target remains. The proved bound on requests, one plus the faults plus the answers
  at once, is reached for all numbers of both (`RecoveryLimits.EveryFaultCostsARequest`).
- `tick` reschedules a step that threw without looking at the attempt budget. Steps that
  do not throw end a recovery within its budget, whatever others throw in between
  (`RecoveryTheorems.RecoveryEnds`); steps that throw can go on forever
  (`RecoveryLimits.ThrowsOutlastTheBudget`).
- A ledger read that fails counts as an empty ledger; each such read, and each lost
  write, can cost one more message (`DeliveryLimits.EveryFaultCostsAMessage`).
- A recovery is for the messages of the call that returned. A chat that an earlier call
  served before it threw keeps its text and never gets the video
  (`Broadcast.EarlierChatsGetNoVideo`), and an alert whose last call sent nothing has no
  recovery at all.
- `deliverEvent` can ask for a retry although nobody is left waiting, exactly when a
  target is listed twice or the driver's group is itself a subscriber
  (`DeliveryTheorems.ThrowsOnlyForAReason`).
- The driver switch touches nobody else in the same calls, but a switch that cannot be
  read makes the event go round again, and if the ledger cannot be read on that round
  the others are alerted twice (`DeliveryLimits.UnreadableSwitchAndUnreadableLedger`).
  `DriverSwitchRetries.SwitchMattersUnlessQuiet` is the exact condition: no retry after
  a call the event can end with fails to read the ledger, has a new target, or looks for
  a row whose write was lost.
- The watch tests `restarting` when a look begins and not when it ends, and its timer
  does not wait for the look before. With `k` looks in flight it can ask for `k` restarts
  (`AppSecretsTheorems.OverlappingLooksAllRestart`), and an older look can set `lastSeen`
  back (`AppSecretsTheorems.OldLookGoesBack`). One restart is a promise exactly if looks
  do not overlap (`AppSecretsTheorems.OneRestartOnlyWithoutOverlap`).
- An alert pushed out of a full queue keeps its event pending, so the event is never
  picked up again before a restart; so does a transform that fails in `src/poller.js`,
  which unlike the speeding poller does not release it
  (`AlertQueueTheorems.StuckForGood`). `AlertQueueLimits.LosesOnlyOverCapacity` says
  exactly when nothing is lost: failed transforms release, and no more events are pending
  at once than can wait in the queue - the one in flight and the one being transformed
  count among them.
- Events found processed join the seen ones, but only a delivery makes room. So the seen
  ones can exceed `SAMSARA_SEEN_IDS_MAX` by as many as were found processed
  (`AlertQueueMemory.SeenSoFar`), and after enough of these a single delivery is enough
  to forget an event just delivered (`AlertQueueForgets.RemembersExactly` says exactly
  when one is sure to be remembered).
- `SAMSARA_PREVENT_POLL_OVERLAP=false` lets two polls look an event up before either has
  picked it up. It is then queued twice (`AlertQueueOverlap.OnceOnlyWithoutOverlap`).
- An event's delivery returns once, and once more for each mark that is lost and each
  lookup that cannot read the table (`EventLife.DeliveredOncePerFault`); that is reached
  for all numbers of both (`EventLife.EveryFaultCostsADelivery`). The ledger still keeps
  each chat to one message, and one more for each fault of its own.
- A secret that ends in `*`, holds `***`, or starts with `*` can be put together again
  by the masking of a later secret; every other secret is gone for good
  (`Scrub.ScrubGuarantee` says exactly which).

## Hypotheses

- Recovery: each claimer writes, or dies, within `STALE_LOCK_MS` of its claim
  (`RecoveryRuns.Timely`); workers read one clock, and a tick uses the time at which it
  began. The messages of a recovery name distinct chats, which
  `DeliveryTheorems.RefsNameDistinctChats` proves of every delivery.
- Delivery: the event has an id. `DriverSwitch` compares calls whose notification
  targets are no driver groups.
- Queue: event ids are not empty, polls do not overlap (the speeding poller never lets
  them, `src/poller.js` does not unless `SAMSARA_PREVENT_POLL_OVERLAP` is `false`;
  `AlertQueueOverlap` shows what overlap costs), and the two pollers' ids are disjoint, so
  each poller is a machine of its own. A limit of zero for the queue is allowed, but the
  bound on its length is stated for limits above it.
- Secrets: the hash is injective, no stored field holds a NUL (PostgreSQL text cannot),
  and a stored version never changes. `RestartsExactlyOnChange` and `RestartsAtMostOnce`
  hold while looks of the watch do not overlap, that is, while the database answers each
  look before the next one begins; the other theorems hold for any overlap.
- Poll state: the gets and saves of one key do not overlap.

## Model

| member | source | states |
|---|---|---|
| `VideoBackfill.FitCaption` | src/videoBackfill.js:31-42 | a caption fits Telegram's 1024 characters; a shorter one is unchanged, a longer one is its own beginning and an ellipsis |
| `VideoBackfill.SortTargetsBySwitch` | src/driverGroupSwitch.js:85-108 | the loop builds exactly the messages to send to, dropped and held, in order |
| `VideoBackfill.SortedPartitions` | src/driverGroupSwitch.js:85-108 | every waiting message is in exactly one of the three lists, as often as it waits |
| `VideoBackfill.ReplaceMessageWithVideo` | src/videoBackfill.js:56-136 | the video goes out once or not at all, both cameras first, and the text is deleted only after it |
| `VideoBackfill.RunVideoBackfill` | src/videoBackfill.js:143-194 | the failed targets are exactly those without their video, and posted and failed add up; without a URL all fail |
| `CameraMedia.WindowHoldsTheEvent` | src/cameraMediaRetrieval.js:62-98 | a window exists exactly when there is a vehicle and a usable time, lasts 5 to 600 s, and holds the event's start |
| `CameraMedia.OwnTimesComeFirst` | src/cameraMediaRetrieval.js:69-79 | which times of the event count, and that one that cannot be read is not replaced |
| `CameraMedia.WindowIsPadded` | src/cameraMediaRetrieval.js:66-92 | the window begins and ends with the configured paddings, but for the cut at ten minutes |
| `CameraMedia.PaddingIsClamped` | src/cameraMediaRetrieval.js:43-47 | other paddings count as the nearest in range, none as 15 and 45 seconds |
| `CameraMedia.WindowCoversWholeEvent` | src/cameraMediaRetrieval.js:62-98 | the event's end is inside exactly when it fits in ten minutes with the padding before it |
| `RecoveryStore.Store.Enqueue` | src/videoRecoveryStore.js:118-150 | one recovery per event; a second enqueue changes nothing |
| `RecoveryStore.NewRowWaits` | src/videoRecoveryStore.js:118-150 | a recovery begins with all its messages waiting, nothing tried or asked for, in nobody's hands |
| `RecoveryStore.WritesKeepWhatTheyDoNotName` | src/videoRecoveryStore.js:191-269 | what a write names replaces the column, what it does not name stays, a request is dated once, the row is freed |
| `RecoveryStore.Store.ClaimDueJobs` | src/videoRecoveryStore.js:160-183 | locks exactly the earliest rows up to the limit that are due, open and not claimed within ten minutes |
| `RecoveryStore.Store.Update` | src/videoRecoveryStore.js:191-269 | the row afterwards: attempts, markers kept once set, targets and status in one statement, by id only |
| `RecoveryWorker.Worker.DeliverVideo` | src/videoRecoveryWorker.js:193-215 | what is done outside and which messages remain |
| `RecoveryWorker.Worker.ProcessJob` | src/videoRecoveryWorker.js:238-346 | one step: its outside calls in order, and the one write that ends it |
| `RecoveryWorker.Worker.WorkOn` | src/videoRecoveryWorker.js:367-382 | a step that throws is followed by the reschedule of the catch |
| `RecoveryWorker.Worker.WorkThrough` | src/videoRecoveryWorker.js:366-383 | every claimed job is worked on as it was claimed, one after another |
| `RecoveryWorker.Worker.Tick` | src/videoRecoveryWorker.js:353-391 | a tick claims the earliest due jobs and gives each one step; disabled or already running, it changes nothing |
| `RecoveryWorker.EnqueueVideoRecovery` | src/videoRecoveryWorker.js:436-477 | when a delivered alert becomes a recovery, of which messages, and that the second time is nothing |
| `RecoveryWorker.DelayIsRounded` | src/videoRecoveryWorker.js:450-454 | the first check waits the delay given to the nearest second, one at least, or the settings' own |
| `RecoverySteps.AsksExactlyWhen` | src/videoRecoveryWorker.js:252-269 | footage is asked for exactly when somebody waits, none of the three reads brought any, nobody asked, it is switched on and a window exists |
| `RecoverySteps.StepServes` | src/videoRecoveryWorker.js:193-215 | with footage from a read or the answer: a driver's group switched off is dropped, an unreadable one waits, everybody else is posted to exactly if the clip can be sent, and loses the text exactly if it can be deleted; the rest goes on waiting |
| `RecoverySteps.NoFootageNobodyTouched` | src/videoRecoveryWorker.js:332-345 | without footage nobody is touched and everybody goes on waiting |
| `RecoverySteps.StepEnds` | src/videoRecoveryWorker.js:239-345 | completed exactly when nobody waits; otherwise on after the settings' interval until the last attempt, then failed or without video; what is recorded of a request |
| `RecoverySteps.ThrownStepWaitsAsItWas` | src/videoRecoveryWorker.js:370-382 | a step that throws goes on after the same interval with the same status and messages |
| `RecoveryPlan.StepKeepsPlan` | src/videoRecoveryWorker.js:238-346 | whatever the answers, a step posts to a chat once, drops no chat it posts to, deletes right after posting, asks only if nobody asked, and its write keeps exactly the messages not served |
| `RecoveryPlan.PlanKeepsPlan` | src/videoRecoveryWorker.js:238-382 | the same when the step throws anywhere |
| `RecoveryRuns.ActionKeeps` | src/videoRecoveryStore.js:118-269 | every action of any worker, landing or lost, keeps the invariant of the table |
| `RecoveryRuns.RunKeeps` | src/videoRecoveryStore.js:118-269 | so it holds in every state of every run within the lease |
| `RecoveryTheorems.AtMostOncePerFault` | src/videoRecoveryWorker.js:186-328 | each message gets its video at most once plus once per lost write, crash or throw; a stored one only for faults |
| `RecoveryTheorems.LeaseSafety` | src/videoRecoveryStore.js:60-61 | at most one live holder, no claim takes a job from it, and an unheld open job becomes claimable |
| `RecoveryTheorems.TargetsAreConserved` | src/videoRecoveryWorker.js:193-328 | stored messages only shrink; each initial one has its video, was dropped or is stored, in one place without faults; a completed job stores none |
| `RecoveryTheorems.NoTextIsLost` | src/videoBackfill.js:50-136 | at every instant each chat holds its text or a video with its own text, cut to 1024, and no other caption exists |
| `RecoveryTheorems.FootageIsAskedForOnce` | src/videoRecoveryWorker.js:264-287 | requests are bounded by one plus faults plus instant answers; once one is on record it stays on record and nothing is posted to Samsara again, not even a refused request |
| `RecoveryTheorems.EveryWindowIsGenuine` | src/videoRecoveryWorker.js:156-184 | every request of every run is the step's first call, on a job nobody asked for, for a window of 5 to 600 s of the job's own vehicle that holds the event's start |
| `RecoveryTheorems.RecoveryEnds` | src/videoRecoveryWorker.js:238-346 | from any instant on, an open job ends within max(1, budget - attempts) landed steps that do not throw, whatever else throws or fails; attempts count landed reschedules |
| `RecoveryTheorems.EndedIsEnded` | src/videoRecoveryStore.js:78 | a job that has ended never changes, is held or is posted to again |
| `RecoveryTheorems.OneRecoveryEach` | src/videoRecoveryStore.js:111-114 | in every run an event has one recovery |
| `RecoveryTheorems.JobsEvolve` | src/videoRecoveryStore.js:191-269 | over any stretch of a run a job's targets shrink, its markers stay and its counts only grow |
| `RecoveryTheorems.TicksAreRuns` | src/videoRecoveryWorker.js:353-391 | what a tick leaves in every row, of a whole batch, is what the run machine leaves: of a claimed job when one holder works undisturbed, of an unheard claim its lock |
| `RecoveryClaims.NeverBeforeItsDelay` | src/videoRecoveryStore.js:160-183 | over every run no claim takes a new recovery before the time it was enqueued for |
| `RecoveryClaims.RetriesWaitTheInterval` | src/videoRecoveryStore.js:191-232 | over every run, after a landed reschedule no claim comes before the interval of its own claim's settings, in milliseconds from the write |
| `RecoveryClaims.NotBeforeItIsDue` | src/videoRecoveryStore.js:168-170 | no claim ever comes before a time that was the job's next check; a next check never moves back |
| `RecoveryClaims.DroppedWasOff` | src/driverGroupSwitch.js:96-97 | over every run a chat dropped was found switched off by some step |
| `RecoveryClaims.ServedWasOn` | src/driverGroupSwitch.js:85-108 | over every run a chat with a video was let through by some step's switch |
| `RecoveryClaims.NobodyGivesUpEarly` | src/videoRecoveryWorker.js:238-345 | over every run a job that gave up did so on the last attempt of some claim's budget |
| `RecoveryLimits.EveryLostWriteCostsAVideo` | src/videoRecoveryWorker.js:186-192 | for every k a run with k lost writes and k + 1 videos: the bound is reached |
| `RecoveryLimits.ThrowsOutlastTheBudget` | src/videoRecoveryWorker.js:367-382 | for every k a job still open after k steps that threw: the budget does not end it |
| `RecoveryLimits.LeaseIsExact` | src/videoRecoveryStore.js:60-61 | one video and one more per fault, in every run whose claimers keep a lease, if and only if the lease is at most `STALE_LOCK_MS` |
| `RecoveryLimits.SlowHolderTwoVideos` | src/videoRecoveryStore.js:223-226 | for any longer lease a run within it, without faults, with two videos |
| `RecoveryLimits.EveryFaultCostsARequest` | src/videoRecoveryWorker.js:274-326 | for all numbers of faults and of instant answers a timely run, under one budget, with one request more than both |
| `DeliveryLedger.Ledger.GetEventDeliveries` | src/db.js:389-401 | the rows of the event, or nothing when the read fails |
| `DeliveryLedger.Ledger.RecordEventDelivery` | src/db.js:411-425 | the upsert that never downgrades a delivered row, and touches no other event |
| `DeliveryLedger.GetTargetStatuses` | src/deliveryTracker.js:58-68 | the map is the whole ledger of the event, or empty |
| `Delivery.SendNotificationToTarget` | src/broadcastDelivery.js:32-76 | both cameras, one, text: one message at most, and only the text's answer is an error |
| `Delivery.AttemptTarget` | src/broadcastDelivery.js:138-145 | one send and its record in memory and in the ledger |
| `Delivery.NotifySubscribers` | src/broadcastDelivery.js:186-233 | the loop over subscribers and the forced group leaves the world that `Notified` says |
| `Delivery.DeliverEvent` | src/broadcastDelivery.js:83-391 | the ledger, statuses, attempts, returned messages and the throw are those of `Complete`; other events untouched |
| `DeliveryTheorems.AtMostOncePerFault` | src/broadcastDelivery.js:1-16 | over all retries and restarts a chat gets an event once plus once per failed read or own lost write; exactly once or not at all with a working ledger |
| `DeliveryTheorems.NeverDowngraded` | src/db.js:402-406 | a ledger row stays, delivered for good, and so does what a call holds in memory |
| `DeliveryTheorems.ReturnSettles` | src/broadcastDelivery.js:366-371 | a call returns only if everybody it owes the alert is settled |
| `DeliveryTheorems.ThrowsOnlyForAReason` | src/broadcastDelivery.js:134-136 | its retry error means that somebody still waits, after any tries, exactly when no target is doubled and the driver's group is no subscriber |
| `DeliveryTheorems.CommittedMeansHandled` | src/broadcastDelivery.js:366-371 | whoever a call that returned owed the alert has had it or refused it for good, then and ever after |
| `DeliveryTheorems.RefsAreWhatWasSent` | src/broadcastDelivery.js:304-391 | every message handed over is the notification bot's with the alert's text to a target, or the driver bot's with the driver's text to the driver's group, under the id the send answered with |
| `DeliveryTheorems.SwitchRulesTheDriver` | src/broadcastDelivery.js:244-275 | the driver's group is tried exactly when its bot is there, its switch is on and it is not settled; unreadable makes the call throw, off costs nothing |
| `DeliveryTheorems.EverybodyIsATarget` | src/broadcastDelivery.js:186-233 | the targets are the subscribers in order and the forced group, once |
| `DeliveryLedger.UpsertNeverDowngrades` | src/db.js:402-425 | delivered is always recorded and never lost, a refusal unless it was delivered, other rows stay |
| `DeliveryTheorems.RefsNameDistinctChats` | src/broadcastDelivery.js:373-377 | the returned messages name pairwise distinct chats |
| `DeliveryLimits.EveryFaultCostsAMessage` | src/db.js:397-424 | for any numbers of failed reads and lost writes, one message more than both: the bound is reached |
| `DriverSwitch.SwitchTouchesNobodyElse` | src/broadcastDelivery.js:244-260 | over the same calls with any faults, every notification target sees the same attempts and ends with the same standing whatever the switch answers |
| `DriverSwitchRetries.ExtraRetriesAreSilent` | src/broadcastDelivery.js:270-275 | retries that find everybody they reach on record reach nobody but the driver's group |
| `DriverSwitchRetries.RetriesTouchNobodyElse` | src/broadcastDelivery.js:244-275 | on a quiet schedule, runs that each end at their own commit leave everybody else the same messages, attempts and rows |
| `DriverSwitchRetries.SwitchMattersUnlessQuiet` | src/broadcastDelivery.js:244-275 | two answers of the switch, all else alike, never make a difference to anybody but the driver's group, exactly when the schedule of reads, writes and subscribers is quiet |
| `DeliveryLimits.UnreadableSwitchAndUnreadableLedger` | src/broadcastDelivery.js:270-275 | without the working ledger the others can be alerted twice because the switch could not be read |
| `Broadcast.BroadcastAlert` | index.js:280-352 | the ledger after the delivery, and when it leaves a recovery, of which messages |
| `Broadcast.RecoveryIsForThisCall` | src/broadcastDelivery.js:373-377 | a chat is a target of the recovery exactly when the returning call sent to it and a message id came back |
| `Broadcast.EarlierChatsGetNoVideo` | src/broadcastDelivery.js:366-377 | a chat on record from an earlier call that threw is no target of the recovery |
| `Broadcast.NothingSentNothingRecovered` | index.js:329-341 | a returning call that sent nothing leaves nothing to recover |
| `AlertQueue.Poller.LookAt` | src/poller.js:391-393 | which events are looked up |
| `AlertQueue.Poller.AfterLookup` | src/poller.js:395-402 | a processed event is seen, another is picked up |
| `AlertQueue.Poller.AfterTransform` | src/speedingPoller.js:316-348 | queued, released, or left pending by a poller that does not release |
| `AlertQueue.Poller.QueueAlert` | src/poller.js:119-130 | the overflow, the push, and the start of an idle queue |
| `AlertQueue.Poller.ProcessQueue` | src/poller.js:135-161 | the oldest alert is sent, or the run ends |
| `AlertQueue.Poller.AfterBroadcast` | src/poller.js:147-153 | a failed delivery releases its event |
| `AlertQueue.Poller.NoteEventDelivered` | src/poller.js:94-103 | seen, no longer pending, the oldest seen id evicted |
| `AlertQueue.Poller.NoteEventDeliveryFailed` | src/poller.js:105-108 | no longer pending |
| `AlertQueueTheorems.StepKeeps` | src/poller.js:94-161 | every stretch of code keeps the invariant |
| `AlertQueueTheorems.QueueIsInOrder` | src/poller.js:119-161 | in every interleaving one alert in flight at most, a queue within its limit, nothing pending seen, broadcasts in pick-up order |
| `AlertQueueTheorems.EveryEventIsSomewhere` | src/speedingPoller.js:82-135 | pending is exactly queued, in flight, being transformed, dropped or left behind, each once; the speeding poller leaves none behind; every event picked up is pending or ended |
| `AlertQueueTheorems.StuckForGood` | src/poller.js:121-125 | a dropped or left-behind event stays pending and is never picked up or broadcast again |
| `AlertQueueMemory.MarkedIsLeftAlone` | src/poller.js:94-103 | within a process a delivered event is not looked up, picked up or broadcast again until the limit of others have been dealt with and one of them marked, whatever marks are lost and lookups fail |
| `AlertQueueMemory.SeenSoFar` | src/poller.js:94-103 | the seen events are the latest dealt with, in order; never fewer than the limit allows, more only by those found processed |
| `AlertQueueForgets.RemembersExactly` | src/poller.js:94-103 | a delivered event is sure to be remembered if and only if fewer others than the limit were dealt with since, or none of them marked |
| `EventMemory.NotAgainInOneProcess` | src/poller.js:391-398 | the same of deliveries: one process does not deliver a marked event again while it is remembered, even if the mark was lost |
| `AlertQueueLimits.DropsOnlyOverCapacity` | src/poller.js:119-130 | nothing is ever pushed out if and only if no more events are pending at once than can wait |
| `AlertQueueLimits.LosesOnlyOverCapacity` | src/poller.js:387-409 | no event is ever stuck if and only if, besides, a failed transform releases its event |
| `AlertQueueLimits.Overflows` | src/poller.js:121-125 | for every limit a run with one pending event too many that pushes an alert out |
| `AlertQueueLimits.LeavesBehind` | src/poller.js:401-409 | a run of a poller that does not release, whose event is left behind |
| `AlertQueueOverlap.OnceOnlyWithoutOverlap` | src/poller.js:287-292 | an event waits or is broadcast at most once if and only if polls do not overlap |
| `EventLife.DeliveredOncePerFault` | src/poller.js:94-103 | over all restarts an event's delivery returns once plus once per lost mark and missed lookup, and each chat has it once plus once per ledger fault |
| `EventLife.ProcessedMeansHandled` | src/poller.js:146-149 | an event in the table was delivered: everybody the returned call owed has had it or refused it for good |
| `EventLife.MarkedIsOver` | src/db.js:427-445 | after its mark landed an event is never delivered again, over any restarts, while no lookup misses the mark |
| `EventLife.EveryFaultCostsADelivery` | src/db.js:427-445 | for all numbers of lost marks and missed lookups a life with one delivery more than both |
| `PollState.PollStateStore.GetPollState` | src/db.js:157-169 | the cached value, or the table's, or nothing |
| `PollState.PollStateStore.SavePollState` | src/db.js:172-188 | a write through the cache, remembered only if it lands |
| `PollState.PollStateStore.GetPollWatermark` | src/db.js:297-301 | the process's own watermark first |
| `PollState.PollStateStore.SavePollWatermark` | src/db.js:303-311 | the poller moves on even when the write fails |
| `PollState.CacheIsInvisible` | src/db.js:140-188 | after any operations with any failures the table is what always writing leaves, and reads answer what the table answers |
| `PollState.LastReachedIsGiven` | src/db.js:297-311 | until another is reached or the process restarts, every poll is given the watermark reached last, even if its write failed |
| `PollState.OnceReadIsKept` | src/db.js:140-188 | what a process knows of a key it answers without the database until it restarts |
| `PollState.WatermarkIsNeverAhead` | src/db.js:297-311 | the stored watermark is one reached earlier, only moves forward, and no poll is given one behind it |
| `SecretsDigest.DigestTellsOwnRowsApart` | src/appSecrets/digest.js:16-22 | equal digests exactly for equal multisets of own rows, although values may hold the joining newline |
| `AppSecrets.OpenScope` | src/appSecrets/fetch.js:81-90 | the rows of one scope opened over the values so far, and whether any could not be |
| `AppSecrets.FetchAppSecrets` | src/appSecrets/fetch.js:31-101 | all own values or none: loaded exactly when everything can be read and opened |
| `AppSecrets.OwnScopeWins` | src/appSecrets/fetch.js:79-90 | a value is an own row opened, and this service's scope wins over the shared one |
| `AppSecrets.Boot.LoadAppSecrets` | src/appSecrets/boot.js:42-77 | stored values override the environment, anything else leaves it as it was |
| `AppSecrets.SecretsWatch.Check` | src/appSecrets/watch.js:59-60 | a look begins, unless the watch is off or a restart is under way |
| `AppSecrets.SecretsWatch.AfterLatest` | src/appSecrets/watch.js:61-80 | the newest version ends the look or has its rows read, and what was seen last |
| `AppSecrets.SecretsWatch.AfterRows` | src/appSecrets/watch.js:81-101 | the rows restart the process or not, without another look at the flag |
| `AppSecretsTheorems.BaselineMeansSame` | src/appSecrets/watch.js:53-96 | the digest read equals the baseline exactly when no own setting changed |
| `AppSecretsTheorems.RestartsAreJustified` | src/appSecrets/watch.js:75-100 | however looks overlap, every restart is for a version under the own key with other own rows, later than the one loaded |
| `AppSecretsTheorems.ChangeIsNoticed` | src/appSecrets/watch.js:81-96 | however looks overlap, no change is missed once both reads succeed, and a failed read is asked again |
| `AppSecretsTheorems.RestartsAreBounded` | src/appSecrets/watch.js:60-99 | a process asks for no more restarts than it ever has looks in flight at once |
| `AppSecretsTheorems.RestartsAtMostOnce` | src/appSecrets/watch.js:60-99 | one restart at most while looks do not overlap |
| `AppSecretsTheorems.RestartsExactlyOnChange` | src/appSecrets/watch.js:75-100 | while looks do not overlap, a restart is asked for exactly when the rows of a version with other settings are read; it is the first, and for a version newer than any seen |
| `AppSecretsTheorems.NothingToWatch` | src/appSecrets/watch.js:40-49 | pinned, told not to load, or values that would not open: no look and no restart in any life |
| `AppSecretsTheorems.NoVersionIsReadTwice` | src/appSecrets/watch.js:71-95 | while looks do not overlap, no version's rows are read again, nor those of the version loaded at start |
| `AppSecretsTheorems.OverlappingLooksAllRestart` | src/appSecrets/watch.js:59-101 | for every k and every start a life with k overlapping looks and k restarts |
| `AppSecretsTheorems.OneRestartOnlyWithoutOverlap` | src/appSecrets/watch.js:59-101 | one restart at most is a promise if and only if looks do not overlap |
| `AppSecretsTheorems.OldLookGoesBack` | src/appSecrets/watch.js:75-80 | after every start, two overlapping looks that set what was seen last back |
| `Compression.ResolveTelegramTargetBytes` | src/safetyEventVideoMusicService.js:46-50 | 49 MB unless a size is configured, that size up to 49.5 MB, and so always below the hard limit |
| `Compression.PlanFitsTheMargin` | src/safetyEventVideoMusicService.js:158-173 | the planned clip fits the margin exactly when there is room for 250 kbps of video, and one kbps more would not |
| `Compression.SecondPassIsSmaller` | src/safetyEventVideoMusicService.js:158-173 | the second pass never plans more video, and always fewer bytes |
| `Compression.RateIsMonotone` | src/safetyEventVideoMusicService.js:158-173 | the rate falls with the length and rises with the target |
| `Compression.PassesInNumbers` | src/safetyEventVideoMusicService.js:158-173 | 92% of the target with 128 kbps of sound and 720 lines, then 80% with 96 and 480, each to within one kbps |
| `DriverVideo.PrepareDriverVideoBuffer` | src/safetyEventVideoMusicService.js:337-498 | the buffer and job status are those of `Prepared`, through both compression passes |
| `DriverVideo.PreparedIsSendable` | src/safetyEventVideoMusicService.js:337-498 | the camera's clip or a non-empty file Telegram takes; the job status says which; the music is given up only when nothing with it could be sent |
| `DriverVideo.MusicIsForSpeeding` | src/safetyEventVideoMusicService.js:337-400 | only the road's clip of a speeding alert gets music or a job row, while switched on, set up and within its length |
| `DriverVideo.SpeedingGetsMusic` | src/safetyEventVideoMusicService.js:400-440 | and every such clip whose output is within the target does |
| `DriverVideo.TooLargeIsCompressed` | src/safetyEventVideoMusicService.js:440-498 | an overlay too large is compressed once, then twice; otherwise the camera's clip goes out, and the job says whether Telegram takes it |
| `DriverVideo.SendDriverGroupAlert` | src/driverGroupDelivery.js:30-112 | nothing over 50 MiB is uploaded; one message exactly, or an error; the chain of attempts in full |
| `DriverVideo.OnlyTheCameraIsTooLarge` | src/driverGroupDelivery.js:9-21 | the prepared clip is too large only if the camera's own is |
| `Routing.WordsStayWords` | src/routing.js:7-13 | normalizing a normalized name changes nothing |
| `Routing.UnitIsFirstNumber` | src/routing.js:1-5 | the unit of a label is the first whole number in it, none only if it holds no digit |
| `Routing.DigitsInOrder` | src/routing.js:15-17 | of a unit number all digits count, in order, and nothing else |
| `Routing.NameSplits` | src/routing.js:7-13 | anything but a letter or digit separates words, with one space between two words and none around them |
| `Routing.WordIsLowered` | src/routing.js:7-13 | a word stays, letter by letter, in lower case |
| `Routing.HintedByATitle` | src/routing.js:24-32 | a hint that decides has three characters at least and stands in the group's title |
| `Routing.SubjectsApart` | src/routing.js:36-39 | two alerts are about one subject exactly if they name one vehicle, or one unit and no vehicle |
| `Routing.ParseIsNoGuess` | src/routing.js:15-33 | the label finds a group exactly when its number is unique or a name tells the groups apart |
| `Routing.OtherNumbersMakeNoDifference` | src/routing.js:15-33 | groups of other numbers never change the parse, wherever they stand |
| `Routing.RoutedIsACandidate` | src/routing.js:69-159 | the routed group is the stored or the parsed one; when a finding is filed, and what it says |
| `RoutingFindings.FiledSaysTheFinding` | src/routingFindings.js:47-86 | a filed row says what the finding says, and no other row changes |
| `RoutingFindings.Findings.RecordRoutingFinding` | src/routingFindings.js:47-86 | the upsert: a resolved row opens again, a dismissed one stays |
| `RoutingFindings.Findings.ResolveRoutingFindings` | src/routingFindings.js:94-113 | closes exactly this vehicle's open routing findings but the excepted one, and counts them |
| `RoutingFindings.Findings.FindGroupByUnit` | src/store.js:199-249 | the routed group and the findings afterwards, whatever lands |
| `RoutingFindings.RoutedAlertSettlesItsVehicle` | src/routingFindings.js:12-18 | after a routed alert the vehicle's open findings are the one filed or none; dismissed stay dismissed |
| `RoutingFindings.OthersAreLeftAlone` | src/routingFindings.js:94-113 | other vehicles, checks and subjects are untouched, no row disappears, an unrouted alert settles nothing |
| `Scrub.ScrubText` | src/standby.js:39-45 | the loop computes the masking of each secret in turn, cut to 300 |
| `Scrub.CleanTextStays` | src/standby.js:38-45 | a text that holds no secret comes through as it is, cut to 300 |
| `Scrub.ScrubbedForGood` | src/standby.js:39-45 | a secret the mask cannot contribute to is gone from every text under every list |
| `Scrub.SurvivorExists` | src/standby.js:39-45 | any other secret comes back for some text and list |
| `Scrub.ScrubGuarantee` | src/standby.js:38-45 | which secrets are always removed, exactly |
| `Scrub.StarFreeSecretsNeverLeak` | src/standby.js:38-45 | no secret without a star ever comes through |

## Left out

- HTTP requests to Samsara, Telegram, Groq, Gemini and the geocoder, and how their answers are parsed: each call is an input with an outcome.
- SQL, transactions and the connection pool: each statement is one atomic change; `FOR UPDATE SKIP LOCKED` is that atomicity.
- ffmpeg, its arguments, temporary files and timeouts: a run throws or yields a file of some size.
- AES-GCM, SHA-256 and key fingerprints: opening a value and hashing are functions given from outside.
- Logs, error texts (`last_error`), health and heartbeat fields, counters that only feed a log line.
- `classifyTelegramError`: whether an error is permanent or transient is part of the answer of a send.
- `isDriverGroupAlertsEnabled`: its query is one of three answers, on, off or unreadable; the missing-column latch is not modelled.
- The note appended to notifications when the driver bot is not in the group, and the safety-event record kept before sending: neither touches the ledger.
- `DEFAULT_BACKFILL_CAPTION` and messages without a caption of their own: the worker never passes a default, and every delivered message carries its text.
- String lengths in UTF-16 units and HTML entities cut by a caption or by the scrubber: a string is a sequence of characters.
- Non-ASCII letters whose lower-case form is ASCII in `normalizeName`.
- `chooseMusicPlan`, `buildFfmpegArgs` and rounding of floating-point products: the bitrates are over the reals.
- `RecoveryTheorems.RecoveryEnds`: puts no bound on steps that throw, because there is none (`RecoveryLimits.ThrowsOutlastTheBudget`).
- `DeliveryTheorems.AtMostOncePerFault`: an event without an id has no ledger at all and is not covered.
- Clock skew between processes, two copies of the service with separate queues, and what a poll asks Samsara for (cursors, pages, windows).
- `requestVideoRetrieval` without a vehicle, window or key: the worker never calls it so.
- Storing subscribers (`store.add`, `store.remove`, Redis and the local file): the list a call sees is an input.
- `runPreflight`, `probeTelegramUpload` and the standby gates of `src/standby.js`.
