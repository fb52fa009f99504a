# Verified coordination core

A Dafny 4.11 model of the code by which this platform's browsers and server stay in step, with proofs about every run of
it. Pure rules are functions on values; code that changes state step by step is a class whose methods are proved equal to
those functions; and what the code is for is proved over all runs, all inputs and all interleavings.

- **Realtime freshness** (`ReplayStore`, `ReplayCalls`, `ReplayLog`, `Emit`, `EntitySync`, `RealtimeWorld`,
  `RealtimeTags`, `RealtimeRest`, `RealtimeLimits`, `RealtimePages`, `ConnectStorm`). The server tells members what
  changed and remembers it for a minute; a client reads tagged queries again on a change, on a replay and on a
  connect. The store is proved to be a view of a plain log of every send, the client's listeners are proved against
  their step functions, and the two are put together as one machine with two clocks, a link that drops, and reads that
  land late. Nobody stays stale, except in cases that are named, and a query that is shown and whose read did not fail
  is current exactly when none of the three noted slips befell it; with every query in view, nothing failing and
  nothing put in by a page, there are no exceptions. Rest is always in reach.
- **Background-effect queue** (`ApplyQueue`, `ApplyQueueRuns`, `ApplyQueueAnswers`). One operation at a time, the latest
  wish wins, every caller answered once and truthfully, bounded work, and exactly when what is shown as current has its
  pipeline.
- **Session** (`AuthFailures`, `AuthSession`, `AuthStore`, `AuthRuns`, `AuthAnswers`, `AuthEndings`, `AuthChecks`,
  `AuthLimits`). Checks, re-reads, the shared refresh, sign-ins and other tabs, in any order: which answers are put in
  place, which failures end a session, and that a check ends.
- **Live chat** (`ChatHistory`, `ChatMerge`, `TakeDown`). Merging histories, and dropping what was taken down, against a
  server chat that changes while it is read in pages.
- **Single flights** (`RosterFetch`, `ChatReads`, `Rescore`). No lost wake-up, no overlap, spaced starts, last words win.
- **Smaller machines** (`FrameHealth`, `FrameLadder`, `Countdown`, `CountdownShown`, `Scanner`, `ScannerText`,
  `Csv`, `CsvHeader`, `Chime`, `ChimeSounds`).

`Option`, `OrderedMap` (a JavaScript Map: entries and the order of their keys) and `StringOrder` (JavaScript's `<` on
strings) serve the others. `dafny verify dfyconfig.toml` checks the whole project.

## What is assumed

- A change is the moment `emitEntities` is called: a read the server answers after it holds it. Within one callback the
  clock is read once.
- TanStack Query and socket.io do what the comments of `client/src/realtime/invalidate-entities.ts` (lines 21-25 and
  43-55) say: an invalidate only flags a hidden query, a landing clears the flag, a first read on its way cannot be sent
  again, a link delivers in order what it delivers. The server's room join is not later than the client's `connect`
  event, and no read starts in the same millisecond as a connect.
- For the freshness results, a fan-out reaches every recipient; `Emit` models one that fails on the way. Data a page puts
  in the cache itself may be of any age and any date but the future; setting the data of an idle query clears its flags and
  notes no start, as query-core does.
- The subscription starts before the socket's first connect, over a cache whose data is dated within the margin below or
  noted as slipped, and nothing of the member's last minute has been pushed out of
  the server's memory by its bounds when the socket first joins.
- The client's clock wanders from the server's, and a read is dated late, by less than 30 s together. This is exactly what
  half a minute of trust in a minute of memory allows (`RealtimeLimits.TrustMarginIsExact`).
- Timers fire no earlier than they are due; random draws (retry jitter, roster jitter) take any value of their range.
- Browsers, the camera pipeline, HTTP and Postgres are nondeterministic: any answer, late or never.

## What the proofs found

- A change to a hidden query's tags, heard while a re-read is on its way, is forgotten when that read lands. Shown again,
  the query is current exactly when no such change was announced after that read was answered
  (`RealtimeLimits.HiddenFlagIsLost`, in every run; `RealtimeLimits.HiddenQueryCanBeOvertaken` is a run in which it is not).
- Old data that a page puts in the cache itself, as `client/src/realtime/session-read.ts:59-60` may, is not always read
  again. Before the first connect it is sent again exactly when it is dated more than 30 s before that connect or one of its
  tags changed in the minute before the socket joined (`RealtimePages.FirstConnectSendsExactly`); otherwise data that
  misses a change stays stale (`RealtimePages.LateDataStaysStale` is such a run). Once connected its date plays no part:
  it stays what it is until a change is told, a page reads it or the socket reconnects, so it is stale exactly when it
  missed a change as it was put in (`RealtimePages.AddedDataIsNotRead`, with a run in `BehindDataStaysStale`).
- The watchdog on a switch drops the pipeline and leaves the earlier effect as current, so the same effect asked for again
  is answered as applied with nothing attached (`ApplyQueueRuns.AppliedWithoutPipeline`), although the module's heading
  promises that state follows each operation's actual outcome.
- A refresh asked for with no refresh token anywhere leaves its rejected promise in the mutex: no later refresh is ever sent
  by that tab, and the next session ends at its first refused access token (`AuthLimits.StuckRefreshEndsLaterSessions`).
- A check ends another member's session exactly when its own refresh came back with that member's tokens (which the
  comment at `authStore.ts:447` takes for its own) and they are still in place
  (`AuthEndings.EndsAnothersExactlyWhenStrayed`): from there the next refused read signs that member out
  (`AuthLimits.RefusedAfterItsRefresh`, in every run; `AuthLimits.StrayedRefreshEndsAnothersSession` is one from the start).
- An export with no rows reads back as a header and one record of one empty cell (`Csv.NoRowsReadAsOneEmptyRecord`); an
  export reads back exactly when it has a row and no column's name needs quotes (`CsvHeader.ExportReadsBackExactlyWhen`).
- A merge of an empty history returns the panel as it was, where the comment promises oldest first. The promise is met
  exactly when the history holds a message or the panel met it already (`ChatHistory.MergeHoldsNewestExactlyWhen`, with a
  panel that does not in `ChatHistory.EmptyHistoryLeavesDisorder`).

## Model

| member | source | states |
|---|---|---|
| ReplayStore.Memory.Sweep | server/src/realtime/recent-entities.ts:35-43 | at most once a window, every member's list is cut to its fresh part and empty ones are forgotten; equal to the step function the log refinement is proved of |
| ReplayStore.Memory.Tell | server/src/realtime/recent-entities.ts:49-56 | each told member is moved to the end of the order with the newest 200 of its fresh sends and this one; an empty id is nobody |
| ReplayStore.Memory.ForgetOldest | server/src/realtime/recent-entities.ts:57-60 | members told longest ago are forgotten until 10,000 are left |
| ReplayStore.Memory.RememberEntities | server/src/realtime/recent-entities.ts:46-61 | the whole call, sweep, tell and eviction, equals the step function; no tags change nothing |
| ReplayStore.Memory.NoteLast | server/src/realtime/recent-entities.ts:66-68 | deleting and setting each tag leaves every tag once, where it stood last |
| ReplayStore.Memory.RecentEntities | server/src/realtime/recent-entities.ts:64-70 | the fresh sends' tags without repeats, each at its latest place |
| ReplayStore.LastOccurrencesAppend | server/src/realtime/recent-entities.ts:66-69 | delete-then-set on a Map is keep-last-occurrence |
| ReplayCalls.CallLeaves | server/src/realtime/recent-entities.ts:34-61 | every call, for every member: when the last sweep is 60 s old everyone held afterwards has a send of the last 60 s, and of those not told only expired sends were cut; when not, whoever is not told and not evicted is as before; whoever is told ends with this send, at most 200 of them, and nobody is evicted while 10,000 are not held |
| ReplayCalls.FreshIsCut | server/src/realtime/recent-entities.ts:29-32 | what is cut off a list is its expired sends up to the first that is not |
| ReplayLog.RememberRefines | server/src/realtime/recent-entities.ts:34-61 | every call, at a clock that does not run back, keeps the store a view of the log of all sends: what is missing has expired, is behind 200 newer ones, or its member was told nothing while 10,000 others were; never more than 10,000 members |
| ReplayLog.RefinesLater | server/src/realtime/recent-entities.ts:17-32 | time alone keeps that view |
| ReplayLog.EveryRunRefines | server/src/realtime/recent-entities.ts:26-61 | so over every run of calls from the empty store |
| ReplayLog.OldestIsSqueezed | server/src/realtime/recent-entities.ts:20-26 | a member evicted by the bound was told longest ago: 10,000 others have been told since |
| ReplayLog.FreshIsInWindow | server/src/realtime/recent-entities.ts:29-32 | on a clock that does not run back, cutting at the first fresh send is keeping every fresh send |
| ReplayLog.ReplayIsTheLog | server/src/realtime/recent-entities.ts:63-70 | unless the member was squeezed out, a replay is exactly the last occurrences of the tags in its newest 200 sends that fall in the last minute |
| ReplayLog.ReplayComplete | server/src/realtime/recent-entities.ts:63-77 | a send that is not expired, outnumbered or squeezed out is replayed |
| ReplayLog.ReplaySound | server/src/realtime/recent-entities.ts:63-77 | nothing is replayed that was not sent to that member in the last minute |
| Emit.RecipientsAre | server/src/realtime/emit.ts:56-60 | the recipients are the named ids, each once, without the empty one |
| Emit.RecipientsOf | server/src/realtime/emit.ts:56-59 | the loop collects exactly those |
| Emit.PostsOnceEach | server/src/realtime/emit.ts:56-65 | a fan-out puts these tags and no others on the rooms of named members, on none twice, and on every one when it does not fail |
| Emit.Io.SendEach | server/src/realtime/emit.ts:63-65 | the rooms are sent to in order, up to the first that fails |
| Emit.EmitEntities | server/src/realtime/emit.ts:48-75 | every recipient reached is sent the tags once and all are remembered, at one moment, even when the fan-out fails; no server, no tags or no recipients change nothing |
| EntitySync.QueryCache.FindAll | client/src/realtime/invalidate-entities.ts:64-64 | finds exactly the cached queries that satisfy the predicate |
| EntitySync.QueryCache.AgainWhenTheyLand | client/src/realtime/invalidate-entities.ts:51-55 | the chosen queries, and no others, are marked to be sent once more after their present read |
| EntitySync.ReadAgainInTwoSteps | client/src/realtime/invalidate-entities.ts:115-123 | invalidating the queries with data and waiting for the first reads is one re-read of each chosen query |
| EntitySync.ChangeInTwoSteps | client/src/realtime/invalidate-entities.ts:61-67 | a change heard is an invalidate of every touched query and a second read of each first read on its way |
| EntitySync.Subscription.NoteStarts | client/src/realtime/invalidate-entities.ts:118-118 | each chosen query, and no other, is noted as started at this moment |
| EntitySync.Subscription.ReadAgainThese | client/src/realtime/invalidate-entities.ts:115-123 | each chosen query is read again, now or when its first read lands, and noted as started |
| EntitySync.Subscription.Changed | client/src/realtime/invalidate-entities.ts:149-153 | the listener of entity:changed, live or replayed, equals its step function |
| EntitySync.Subscription.Replayed | client/src/realtime/invalidate-entities.ts:174-181 | the replay reads again what it names that started before the connect, unless a refresh is waiting |
| EntitySync.Subscription.Resync | client/src/realtime/invalidate-entities.ts:166-171 | reads again every tagged query that started before the connect, or 30 s before the first one |
| EntitySync.Subscription.Connected | client/src/realtime/invalidate-entities.ts:182-192 | a connect is answered at once in a quiet window, else by the one trailing refresh |
| EntitySync.Subscription.TimerFired | client/src/realtime/invalidate-entities.ts:191-191 | the trailing refresh answers every connect of its window |
| RealtimeTags.ChangeReadsExactly | client/src/realtime/invalidate-entities.ts:28-67 | a change heard reads a query again if and only if one of the query's tags is among those named and, in a replay after a connect, its read started before that connect and no refresh waits; any other query is left alone |
| RealtimeTags.ConnectReadsExactly | client/src/realtime/invalidate-entities.ts:182-192 | a connect is answered at once if and only if no refresh waits and the last is 5 s old; answered, it reads exactly the tagged queries whose reads started before it, or 30 s before the first one |
| RealtimeTags.TimerReadsExactly | client/src/realtime/invalidate-entities.ts:166-171 | the waiting refresh reads exactly the tagged queries whose reads started before the latest connect |
| RealtimeTags.ReadEnds | client/src/realtime/invalidate-entities.ts:43-55 | a first read told of a change is sent again when it lands or fails; any other read that lands leaves its answer, unflagged, and one that fails what was held |
| RealtimeWorld.EmitKeeps | server/src/realtime/emit.ts:48-75 | a change announced while the socket is up is on its wire, or the socket is down: nothing is missed silently |
| RealtimeWorld.JoinKeeps | server/src/realtime/recent-entities.ts:72-77 | behind a first connect stands a replay of everything of the last minute |
| RealtimeWorld.LiveKeeps | client/src/realtime/invalidate-entities.ts:61-67 | hearing a change settles every query it touches and loses nothing the others wait for |
| RealtimeWorld.ReplayKeeps | client/src/realtime/invalidate-entities.ts:174-181 | hearing a replay settles what it names; what it skips is younger than the connect or waits for the window's end |
| RealtimeWorld.FirstConnectLeans | client/src/realtime/invalidate-entities.ts:77-81 | a read the first connect leaves alone misses only changes the replay behind the connect names |
| RealtimeWorld.ConnectKeeps | client/src/realtime/invalidate-entities.ts:182-192 | after a connect every change a query misses is re-read now, at the window's end, or by the replay |
| RealtimeWorld.TimerKeeps | client/src/realtime/invalidate-entities.ts:166-171 | the trailing refresh settles everything that waited for it |
| RealtimeWorld.OneQueryKeeps | client/src/realtime/invalidate-entities.ts:157-161 | reads that start, are served, land late or fail, and queries shown or hidden, keep every change covered |
| RealtimeWorld.StepKeeps | client/src/realtime/invalidate-entities.ts:144-201 | every step of server, link, clocks and client keeps the whole invariant |
| RealtimeWorld.SlippedIsStale | client/src/realtime/invalidate-entities.ts:21-25 | at rest a query noted as slipped misses a change: none that is current is excused so |
| RealtimeWorld.RestSettles | client/src/realtime/invalidate-entities.ts:10-25 | at rest a change is held, or the query is excused by name |
| RealtimeWorld.PutKeeps | client/src/features/notifications/useNotificationActions.ts:23-30 | data a page sets on an idle query is covered, or noted as put in behind or dated late |
| RealtimeWorld.NobodyStaysStale | client/src/realtime/invalidate-entities.ts:61-201 | over every run, whenever the socket is connected, all sent was heard, no read is on its way and no refresh waits, every query holds, tag by tag, every change that named one of its tags, or its read failed, or it is hidden and flagged, or it slipped; and one that is shown and did not fail is current if and only if it did not slip: was not overtaken while hidden, nor given data by a page when nothing to come would name the change, or dated late before the first connect |
| RealtimeTags.QueriesInViewEndCurrent | client/src/realtime/invalidate-entities.ts:10-25 | with every query in view, no read that fails and no data put in by a page, nothing is excused: over every run, at rest whatever a query holds has every change that named one of its tags |
| RealtimeRest.RestIsReached | client/src/realtime/invalidate-entities.ts:144-201 | from every connected state of a run, hearing, answers, landings and the timer come to rest in finitely many steps, and there every query is current or excused |
| RealtimeLimits.TrustMarginIsExact | client/src/realtime/invalidate-entities.ts:77-81 | were wander and lag to reach half the minute, a run leaves a shown query stale: the margin cannot be a millisecond smaller |
| RealtimeLimits.HearsOfChange | client/src/realtime/invalidate-entities.ts:43-67 | a change heard sends a shown query again, and its flag on a hidden one is lost if and only if the re-read on its way was answered before the last change |
| RealtimeLimits.HiddenFlagIsLost | client/src/realtime/invalidate-entities.ts:43-55 | from wherever a run has come to, a hidden query flagged while its re-read is on its way ends shown, unflagged and idle, and current if and only if no change to its tags was announced after that read was answered |
| RealtimePages.ReplayNamesTheLate | server/src/realtime/recent-entities.ts:63-77 | the replay behind a first connect names a query if and only if one of its tags changed in the minute before the socket joined |
| RealtimePages.FirstConnectSendsExactly | client/src/realtime/invalidate-entities.ts:166-192 | over every run, the first connect and its replay send an idle query again if and only if it is dated more than 30 s before the connect or one of its tags changed in that minute; else it is as it was, and stale exactly when it missed a change |
| RealtimePages.NothingReadsIt | client/src/realtime/invalidate-entities.ts:144-201 | while the socket stays up, a query nobody reads and no change to whose tags is told stays what it is, over every run |
| RealtimePages.AddedDataIsNotRead | client/src/realtime/invalidate-entities.ts:157-161 | so data a page adds while connected, under any date, is current in the end if and only if it missed no change when added |
| RealtimePages.SetDataIsNotRead | client/src/features/notifications/useNotificationActions.ts:27-29 | and so is data set on an idle query, whatever flag it had |
| RealtimePages.LateDataStaysStale | client/src/realtime/invalidate-entities.ts:83-87 | a run, for every date of the last 30 s, in which such data is stale after the first connect |
| RealtimePages.BehindDataStaysStale | client/src/realtime/invalidate-entities.ts:83-87 | a run, for every date, in which it is stale while connected |
| RealtimeLimits.HiddenQueryCanBeOvertaken | client/src/realtime/invalidate-entities.ts:43-55 | a run from before the first connect that ends so, with a shown query stale |
| ConnectStorm.NextIsTheListener | client/src/realtime/invalidate-entities.ts:149-192 | the history follows the listeners themselves |
| ConnectStorm.RefreshesAreSpaced | client/src/realtime/invalidate-entities.ts:75-76 | over every run, two refreshes are at least 5,000 ms apart |
| ConnectStorm.EveryConnectIsCovered | client/src/realtime/invalidate-entities.ts:166-192 | over every run each connect is covered by the last refresh, with that connect or later as its cut-off (30 s earlier only for the first), or came after it and the next refresh is due when its window ends |
| ConnectStorm.NoReadSentTwiceForOneConnect | client/src/realtime/invalidate-entities.ts:172-181 | the refresh and the replay of one connect never both send the same read |
| ApplyQueue.Applier.Settle | client/src/lib/bgEngineCore.ts:117-125 | parts the waiters into those still in play and those answered, each with its answer |
| ApplyQueue.Applier.PumpOn | client/src/lib/bgEngineCore.ts:143-160 | the loop up to its next await, or to rest with the last waiters answered |
| ApplyQueue.Applier.Pump | client/src/lib/bgEngineCore.ts:139-142 | a pump that is running is left to it |
| ApplyQueue.Applier.Request | client/src/lib/bgEngineCore.ts:214-225 | a wish that is already current at rest is answered at once; any other waits and is pumped |
| ApplyQueue.Applier.NotePipelineLost | client/src/lib/bgEngineCore.ts:190-194 | reality becomes the raw camera, and what is wished for is applied again |
| ApplyQueue.Applier.Prewarm | client/src/lib/bgEngineCore.ts:195-198 | warms only when idle and without a pipeline |
| ApplyQueue.Applier.PrewarmResumes | client/src/lib/bgEngineCore.ts:200-213 | a warm-up that ends in any way lets the waiting wishes be pumped |
| ApplyQueue.Applier.Reconcile | client/src/lib/bgEngineCore.ts:154-179 | what landed is current; what failed is rolled back unless something newer is wished for |
| ApplyQueue.Applier.PumpResumes | client/src/lib/bgEngineCore.ts:154-186 | the pump goes on from its await to the next one or to rest |
| ApplyQueueRuns.SamePrefIsEquality | client/src/lib/bgEngineCore.ts:90-94 | the comparison is equality of preferences |
| ApplyQueueRuns.SettleParts | client/src/lib/bgEngineCore.ts:117-125 | each waiter goes on waiting or is answered, never both, never neither |
| ApplyQueueRuns.SettleIsHonest | client/src/lib/bgEngineCore.ts:117-125 | applied only when it is current, superseded only when something else is wished for and no operation to it has just failed, failed only when the operation that just ended was to it and did not resolve |
| ApplyQueueRuns.PumpingKeeps | client/src/lib/bgEngineCore.ts:139-186 | from anywhere midway the pump comes to an operation or to settled rest |
| ApplyQueueRuns.EveryRunSettles | client/src/lib/bgEngineCore.ts:100-227 | over every run each request is answered at most once and truthfully; at rest each exactly once, wish equals current, and that is the last preference asked for unless an operation to it failed |
| ApplyQueueAnswers.EndAnswersEach | client/src/lib/bgEngineCore.ts:117-179 | over every run, when an operation ends each request that waited for its target is told applied if it resolved and failed if not; one for neither the target nor the wish is told superseded; one for the wish goes on waiting or is told applied |
| ApplyQueueAnswers.EndsAtRest | client/src/lib/bgEngineCore.ts:161-186 | with nothing newer wished for, an operation that ends leaves the queue at rest with its target current, or on failure with what was current before |
| ApplyQueueAnswers.PrewarmSparesTheBuild | client/src/lib/bgEngineCore.ts:195-213 | from any rest without a pipeline, after a warm-up that resolves a new effect is a switch, where it would have been a build |
| ApplyQueueAnswers.LossIsRepaired | client/src/lib/bgEngineCore.ts:190-194 | over every run, a pipeline lost at rest is built again for the effect wished for, and a loss changes no wish and no operation under way |
| ApplyQueueRuns.OneOperationAtATime | client/src/lib/bgEngineCore.ts:139-160 | over every run an operation starts only when the one before was answered or given up on; more than one can be alive only after a watchdog |
| ApplyQueueRuns.EndingDecreases | client/src/lib/bgEngineCore.ts:139-186 | each operation that ends leaves strictly less to do |
| ApplyQueueRuns.QuietRunIsShort | client/src/lib/bgEngineCore.ts:195-213 | however many asked, once nobody asks at most two operations end, and the queue is at rest |
| ApplyQueueRuns.CurrentHasItsPipeline | client/src/lib/bgEngineCore.ts:144-200 | when the watchdog never fires on a switch and the pipeline is not lost in the middle of one, an effect shown as current has its pipeline, late builds included |
| ApplyQueueRuns.WatchdogOnSwitch | client/src/lib/bgEngineCore.ts:162-175 | after a watchdog on a switch the agreement survives exactly when no effect was current or the member has meanwhile asked for none |
| ApplyQueueRuns.LossDuringSwitch | client/src/lib/bgEngineCore.ts:190-194 | after a loss during a switch that then succeeds it survives exactly when the target or the wish is no effect |
| ApplyQueueRuns.AppliedWithoutPipeline | client/src/lib/bgEngineCore.ts:163-174 | for any two preferences, a run that ends with an effect answered as applied and nothing attached |
| AuthFailures.RefusedIsNotPassing | client/src/stores/authStore.ts:161-172 | a passing failure never makes a definitive refresh error, and is kept as its cause |
| AuthFailures.FailedRefreshSays | client/src/stores/authStore.ts:155-172 | a failed refresh is definitive if and only if it is a 401, a 403 or a blocked account's, and otherwise is waited out if and only if it was not called off and has no answer, or a 408, a 429 or a 5xx |
| AuthFailures.WaitsAreBounded | client/src/stores/authStore.ts:174-184 | every wait is between 1 s and 60 s, one the server asks for is kept to, and a fixed one runs with the draw from a fifth below its delay to a fifth above |
| AuthStore.Store.InstallTokens | client/src/stores/authStore.ts:329-334 | a new pair is stored, starts a new epoch and signs in |
| AuthStore.Store.AdoptStoredTokens | client/src/stores/authStore.ts:370-379 | another tab's pair comes into memory as a new epoch, and storage is not written |
| AuthStore.Store.WhoseSession | client/src/stores/authStore.ts:399-406 | this session, none, or another member's; the same member's new tokens move the check's epoch on |
| AuthStore.Store.Refuse | client/src/stores/authStore.ts:428-432 | a refusal signs the tab out, except when the tokens in place have become another member's |
| AuthStore.Store.GoRound | client/src/stores/authStore.ts:433-456 | the loop's head: over when superseded or no longer this session, else the next read or refresh is asked for |
| AuthStore.Store.CheckSession | client/src/stores/authStore.ts:381-395 | a check supersedes the older ones; with no tokens nobody is signed in |
| AuthStore.Store.SessionLanded | client/src/stores/authStore.ts:456-472 | an answer is put in place only for the newest check, this session, and no newer read |
| AuthStore.Store.WaitOrGiveUp | client/src/stores/authStore.ts:496-513 | a passing failure is waited out, or given up on with the member kept |
| AuthStore.Store.Failed | client/src/stores/authStore.ts:473-514 | what every failed answer leads to |
| AuthStore.Store.AfterRefresh | client/src/stores/authStore.ts:441-452 | the check goes on after its refresh |
| AuthStore.Store.MayPut | client/src/stores/authStore.ts:129-134 | true, and recorded, exactly when no newer read is in place |
| AuthStore.Store.RereadSession | client/src/stores/authStore.ts:526-542 | a re-read is put in place only for the member shown and no newer read |
| AuthStore.Store.RefreshAccessToken | client/src/stores/authStore.ts:544-553 | joins the refresh on its way; with no token anywhere the rejected promise stays |
| AuthStore.Store.RefreshLanded | client/src/stores/authStore.ts:555-578 | a rotated token is tried once more with the newest, otherwise the refresh is over and let go of |
| AuthRuns.StepKeepsReads | client/src/stores/authStore.ts:116-134 | every step keeps each read number used at most once and the newest in place |
| AuthRuns.AnswersNeverRegress | client/src/stores/authStore.ts:116-134 | over every arrival order of checks and re-reads, the accepted read numbers strictly increase and the member shown is the newest answer's |
| AuthAnswers.AnswerIsPutInPlace | client/src/stores/authStore.ts:456-472 | the member an answer brings is shown if and only if the check is the newest, its epoch's or its own member's tokens are held, and no newer read is in place; the newest check's answer ends the wait, and an older check's changes nothing |
| AuthAnswers.RereadIsPutInPlace | client/src/stores/authStore.ts:526-542 | a re-read is shown if and only if it is of the member shown, signed in, with no newer read in place, and changes nothing else |
| AuthAnswers.NobodyIsLeftLoading | client/src/stores/authStore.ts:381-515 | over every run, once a check has started the newest is under way or the tab has stopped loading and counts as checked |
| AuthAnswers.OneRefreshAtATime | client/src/stores/authStore.ts:544-553 | while a refresh is out, no step but its answer sends another or changes its token |
| AuthAnswers.RefreshAnswerLeadsTo | client/src/stores/authStore.ts:555-582 | new tokens are held, stored and signed in under a new epoch; a first 401 of no blocked account is tried once more exactly when storage holds another token; anything else tells every check that awaits it, definitive if and only if it is a 401, a 403 or a blocked account's |
| AuthAnswers.RefusedRefreshEndsTheSession | client/src/stores/authStore.ts:476-485 | a refused refresh signs the newest check's session out, with the reason of a blocked account, and any other failure of it keeps the session |
| AuthAnswers.SignInReadsItsSession | client/src/stores/authStore.ts:339-395 | a sign-in holds and stores its tokens and its check reads the session; adopting another tab's does the same; a check without tokens finds nobody signed in |
| AuthAnswers.WaitingChangesNothing | client/src/stores/authStore.ts:496-513 | a failure waited out leaves the tab as it was, but for showing that it retries when there is no member |
| AuthEndings.SessionsEndOnlyOnRefusal | client/src/stores/authStore.ts:407-432 | over every run a check ends a session only after a definitive refusal or a 401 after its own refresh, and another member's if and only if that refresh came back as theirs and they are still in place |
| AuthEndings.EndsExactlyOnRefusal | client/src/stores/authStore.ts:427-495 | a failed answer ends the session if and only if the check is the newest, the failure is a refusal, and no other member's session took over; and ending clears memory and storage |
| AuthEndings.EndsAnothersExactlyWhenStrayed | client/src/stores/authStore.ts:399-432 | a refusal ends another member's session if and only if that member's tokens are in place under the very epoch the check goes by |
| AuthEndings.WaitsExactlyWhenItMayPass | client/src/stores/authStore.ts:496-513 | a failure is waited out if and only if it may pass, this is still the session, and there is no member or fewer than three waits |
| AuthChecks.SupersededWritesNothing | client/src/stores/authStore.ts:186-189 | over every run, once a newer check has started an older one writes nothing after any await, and is over |
| AuthChecks.ChecksEnd | client/src/stores/authStore.ts:433-515 | with a member in place throughout, a check hears at most nine things and waits at most three times; until it is over something can always move it |
| AuthChecks.RefreshIsLetGo | client/src/stores/authStore.ts:544-582 | a refresh with a token makes at most two requests and is let go of; the mutex sticks if and only if there is no token |
| AuthChecks.StuckStays | client/src/stores/authStore.ts:546-581 | a stuck mutex stays stuck over every run |
| AuthLimits.RefusedAfterItsRefresh | client/src/stores/authStore.ts:441-492 | from wherever a run has come to, the newest check whose refresh ended well reads again, and a 401 to that read signs out whoever's tokens are held: another member if and only if they are not its own member's |
| AuthLimits.StrayedRefreshEndsAnothersSession | client/src/stores/authStore.ts:446-449 | for any two members, a run from a loaded tab that ends so |
| AuthLimits.StuckRefreshEndsLaterSessions | client/src/stores/authStore.ts:552-577 | after a refresh with no token, in every later run, a new sign-in ends at its first refused access token |
| StringOrder.LessIsTotal | client/src/hooks/chat-history.ts:34-34 | the order of ids is total |
| StringOrder.LessIsTransitive | client/src/hooks/chat-history.ts:34-34 | and transitive |
| StringOrder.LessIs | client/src/hooks/chat-history.ts:34-34 | an id is before another exactly when it is smaller at the first character where they differ, or a prefix |
| ChatHistory.MergeChatHistory | client/src/hooks/chat-history.ts:43-50 | the loops over a Map, the sort and the cap compute the merge |
| ChatHistory.SortSorts | client/src/hooks/chat-history.ts:48-48 | the sort keeps every message and orders them strictly by time, then id |
| ChatHistory.MergeHoldsNewest | client/src/hooks/chat-history.ts:39-50 | a merge is strictly ordered, holds each message once, and leaves out only messages older than all it shows, and only when full |
| ChatHistory.MergeShowsTheNewest | client/src/hooks/chat-history.ts:31-50 | after the merge of a history times never fall and ids rise at one time; only last copies are shown, and all of them but some, of a full panel, no newer than any shown |
| ChatHistory.MergeHoldsNewestExactlyWhen | client/src/hooks/chat-history.ts:39-50 | the promise is met if and only if the history holds a message or the panel met it already |
| ChatHistory.EmptyHistoryLeavesDisorder | client/src/hooks/chat-history.ts:44-44 | a panel out of order that an empty history leaves so, for every cap |
| ChatHistory.MergePrefersTheServer | client/src/hooks/chat-history.ts:40-41 | a message of the history is shown as the server sent it |
| ChatMerge.NewestIsUnique | client/src/hooks/chat-history.ts:39-50 | only one panel holds the newest of given messages |
| ChatMerge.MergeIsIdempotent | client/src/hooks/chat-history.ts:43-50 | the same history merged again changes nothing, for every panel and cap |
| ChatMerge.StaysOut | client/src/hooks/chat-history.ts:49-49 | what the cap left out cannot matter again when more is merged in |
| ChatMerge.MergeAbsorbs | client/src/hooks/chat-history.ts:43-50 | merging into a capped panel holds the newest of everything there has been |
| ChatMerge.HistoriesInAnyOrder | client/src/hooks/chat-history.ts:39-50 | the same messages sent in any histories, in any order, leave the same panel, even with the cap |
| TakeDown.WithoutTakenDown | client/src/hooks/chat-history.ts:67-85 | the loops compute which messages stay |
| TakeDown.ListEventChat | server/src/services/event-chat/event-chat.service.ts:216-232 | from the query's rows, one more than a page, the page is the newest of them oldest first, and there is a next page exactly when something older is listed |
| TakeDown.ReadPages | client/src/hooks/useSessionSocket.ts:1060-1070 | the loop over two pages reads the chat as it is at each read, and calls it whole exactly when a page had no cursor |
| TakeDown.KeptInOrder | client/src/hooks/chat-history.ts:81-84 | what stays keeps its order |
| TakeDown.OldestIsFirst | client/src/hooks/chat-history.ts:75-79 | the loop's oldest message is a least one |
| TakeDown.LeavesExactlyWhen | client/src/hooks/chat-history.ts:67-85 | a held message leaves if and only if it was held before the read, is on no page, is no older than some message of the pages or these are the whole chat, and, being of a room, the viewer is no admin or the pages show some room |
| TakeDown.OnlyTheGoneLeave | client/src/hooks/useSessionSocket.ts:1056-1078 | against a chat that changes between two page reads, a message leaves only if it was held before and the server no longer listed it when the page it belongs on was read |
| TakeDown.TheGoneStayOnlyBehindThePages | client/src/hooks/chat-history.ts:57-85 | a deleted message that may be judged stays if and only if the pages are incomplete and hold only newer messages |
| TakeDown.TwoPagesReachThePanel | client/src/hooks/useSessionSocket.ts:1064-1070 | two pages of 100 reach behind a panel of 200: when the panel has every message they list, every deleted one leaves |
| RosterFetch.Fetcher.ScheduleRosterFetch | client/src/hooks/useSessionSocket.ts:310-317 | coalesces into the pending timer, else waits out the window |
| RosterFetch.Fetcher.TimerFired | client/src/hooks/useSessionSocket.ts:299-302 | starts a fetch, or asks for one more after the one in flight |
| RosterFetch.Fetcher.FetchEnded | client/src/hooks/useSessionSocket.ts:305-308 | a fetch asked for meanwhile is scheduled |
| RosterFetch.DelayIsBounded | client/src/hooks/useSessionSocket.ts:312-315 | a timer waits under four seconds, under 300 ms once the window is over, and never fires inside it |
| RosterFetch.NoChangeIsMissed | client/src/hooks/useSessionSocket.ts:282-320 | over every run starts are at least 3,000 ms apart, at most one fetch is on its way, and a change since the last start has a timer or a pending fetch |
| RosterFetch.TimerIsNotPutOff | client/src/hooks/useSessionSocket.ts:310-317 | however many changes come, a pending timer is not put off; a change with none pending sets one under four seconds away |
| RosterFetch.SeenWithinTwoSteps | client/src/hooks/useSessionSocket.ts:286-289 | left alone, the end of the fetch in flight and the timer bring the last change |
| ChatReads.ChatRead.ReconcileChat | client/src/hooks/useSessionSocket.ts:1079-1081 | begins a read, or asks for one more |
| ChatReads.ChatRead.ReadEnded | client/src/hooks/useSessionSocket.ts:1082-1088 | goes round again exactly when asked to and not disposed |
| ChatReads.NoTagIsMissed | client/src/hooks/useSessionSocket.ts:1052-1089 | over every run reads never overlap, a tag during one is read again after it, and once the panel is gone the read on its way is the last |
| Rescore.Rescorer.RescoreInBackground | server/src/routes/agents.ts:56-61 | starts, drops or keeps the newest words for later |
| Rescore.Rescorer.RescoringEnded | server/src/routes/agents.ts:66-73 | words kept for later are scored next |
| Rescore.LastWordsAreScored | server/src/routes/agents.ts:46-74 | over every run an agent is never scored twice at once, and the last scored words of each that is not being scored are those of its last call not dropped |
| Rescore.CallDuringScoring | server/src/routes/agents.ts:56-73 | a call during a scoring of its agent is dropped whole when it asks only if idle, and otherwise its words are the next scored |
| Rescore.EndingDecreases | server/src/routes/agents.ts:66-73 | each rescoring that ends brings rest closer |
| FrameHealth.FrameMonitor.OnFrameProcessed | client/src/lib/bgFrameHealth.ts:78-116 | one frame's handling equals its step function |
| FrameHealth.FrameMonitor.Shift | client/src/lib/bgFrameHealth.ts:104-104 | the loop leaves the window's newest 45 |
| FrameLadder.RatioNeedsFourteen | client/src/lib/bgFrameHealth.ts:39-39 | a full window breaches exactly from 14 slow frames on |
| FrameLadder.WindowBreaches | client/src/lib/bgFrameHealth.ts:102-106 | the window that breaches is the newest 45 frames judged, with 14 or more over the budget |
| FrameLadder.WatchFollowsHistory | client/src/lib/bgFrameHealth.ts:72-116 | the incremental window is the last up to 45 non-catastrophic frames after warm-up since the step down; each handler is called at most once, nothing after off |
| FrameLadder.ActsExactlyWhenItMust | client/src/lib/bgFrameHealth.ts:78-116 | each frame leads to exactly the action the history of frames calls for |
| FrameLadder.ActsNoEarlier | client/src/lib/bgFrameHealth.ts:20-30 | no step down before frame 65, no ladder turn-off before 110 (65 when started reduced), none by catastrophe before 22 |
| FrameLadder.AlwaysSlowStepsDownThenOff | client/src/lib/bgFrameHealth.ts:31-42 | on every always-slow device those bounds are met exactly |
| Countdown.SessionTimer.SetTimerEndsAt | client/src/stores/sessionStore.ts:539-563 | the end time and the seconds to it, or the value frozen |
| Countdown.SessionTimer.TickTimer | client/src/stores/sessionStore.ts:567-583 | recomputes from the end time; frozen when paused |
| Countdown.SessionTimer.OnTimerSync | client/src/hooks/useSessionSocket.ts:1156-1197 | pause, offset, and the absolute or relative time |
| Countdown.SessionTimer.OnRoundStarted | client/src/hooks/useSessionSocket.ts:529-559 | the same for a new round |
| Countdown.SessionTimer.ApplyFullState | client/src/stores/sessionStore.ts:670-724 | a stale state changes nothing; a newer one sets the end time, the pause and the seconds by the offset it teaches |
| Countdown.RunKeepsOffset | client/src/stores/sessionStore.ts:566-566 | over every run of messages an offset takes the clock's skew away and leaves only a message's delay |
| Countdown.ShownSeconds | client/src/stores/sessionStore.ts:549-555 | a client shows the true seconds left, never fewer, late by no more than that delay |
| CountdownShown.SecondsAreRoundedUp | client/src/stores/sessionStore.ts:555-555 | the seconds shown are the fewest that are not over before the end, never negative |
| CountdownShown.SyncSetsTheEnd | client/src/hooks/useSessionSocket.ts:1166-1192 | after any run, a sync that does not pause makes the client count to the end time it brings, when an offset is known |
| CountdownShown.RoundSetsTheEnd | client/src/hooks/useSessionSocket.ts:529-559 | after any run, a new round is counted to the end time it brings when an offset is known, else its length is shown in full, paused before or not |
| CountdownShown.StateSetsTheEnd | client/src/stores/sessionStore.ts:670-724 | after any run, a state no older than the last one applied sets the count or the frozen number, and an older one changes nothing |
| CountdownShown.PauseFreezes | client/src/hooks/useSessionSocket.ts:1155-1165 | a pause shows the seconds it brings, or when it brings no number those that stood, and however long it is ticked they stay |
| Countdown.ClocksDoNotMatter | client/src/stores/sessionStore.ts:549-555 | two clients at one moment differ by at most the difference of their delays rounded up to a second, for any clocks and any runs |
| CountdownShown.SyncWithoutOffset | client/src/hooks/useSessionSocket.ts:1187-1194 | with no offset and no seconds, a sync counts to the end time it brings by this device's clock, or leaves the countdown as it is |
| Countdown.RelativeIsExact | client/src/hooks/useSessionSocket.ts:1185-1193 | without an end time to trust, exactly the server's seconds are shown for any offset |
| Scanner.MatchingBrace | scripts/check-realtime-entities.js:117-152 | the scan that jumps over comments ends at the first brace where depth outside strings and comments is back at zero, by a reader of one character at a time, or finds that there is none |
| Scanner.LineSkip | scripts/check-realtime-entities.js:132-137 | within a line comment nothing opens or closes |
| Scanner.BlockSkip | scripts/check-realtime-entities.js:138-143 | nor within a block comment |
| ScannerText.StringSkip | scripts/check-realtime-entities.js:124-131 | nor within a string, up to the first of its marks that is not escaped |
| ScannerText.DepthCounts | scripts/check-realtime-entities.js:124-151 | the depth is how many more braces were opened than closed outside strings and comments |
| Scanner.SkipTypeArguments | scripts/check-realtime-entities.js:78-90 | ends after the first non-arrow bracket that brings depth to zero within 400 characters, or there is none |
| ScannerText.TypesEndWhereTheyBalance | scripts/check-realtime-entities.js:78-90 | type arguments end at the first closing bracket, no arrow's, within 400 characters, where as many were closed as opened |
| Scanner.NamesAreApart | scripts/check-realtime-entities.js:103-105 | two names never overlap, so resuming after a match misses none |
| Scanner.FindUseQueryCalls | scripts/check-realtime-entities.js:101-155 | jumping from match to match reports exactly the calls of every place of the text, in order |
| Scanner.CallsAre | scripts/check-realtime-entities.js:101-155 | a call is reported if and only if its name stands there and its body closes; starts strictly increase |
| ScannerText.FoundIsWritten | scripts/check-realtime-entities.js:101-155 | a call is found if and only if the text has the word, spaces, maybe type arguments and spaces, a parenthesis, spaces and a body that closes |
| Scanner.BodiesClose | scripts/check-realtime-entities.js:148-148 | a reported body runs from its opening brace to the first that closes it |
| Scanner.LineColAt | scripts/check-realtime-entities.js:157-163 | the loop computes line and column |
| ScannerText.LineColIs | scripts/check-realtime-entities.js:157-163 | the line is one more than the newlines before the place, and the column its distance from the last of them |
| Scanner.LaterIsFurther | scripts/check-realtime-entities.js:157-163 | a later place is on a later line or further along, so line and column determine the place |
| Csv.ReadCell | server/src/routes/admin.ts:1218-1225 | a printed cell is read back as the cell, whatever it holds |
| CsvHeader.ExportReadsBackExactlyWhen | server/src/routes/admin.ts:1217-1229 | for all rows and columns, a reader of section 2 of RFC 4180 that ends records at LF recovers the header and every cell if and only if there is a row and no column's name needs quotes; otherwise a name that does keeps even the header from coming back |
| Csv.NoRowsReadAsOneEmptyRecord | server/src/routes/admin.ts:1226-1228 | with no rows, one record of one empty cell follows the header |
| Chime.WinnerIsAhead | client/src/lib/message-chime-policy.ts:103-103 | the sort's first vote has none ahead of it |
| Chime.WinnerInAnyOrder | client/src/lib/message-chime-policy.ts:90-105 | the winner does not depend on the order the votes came in |
| ChimeSounds.PlaysExactlyWhen | client/src/lib/message-chime-policy.ts:90-105 | a tab sounds if and only if the message has not sounded, the last chime is 2,000 ms old or this is a ring, no tab is quiet, and its vote is first: seen before unseen, then by id |
| ChimeSounds.FirstWordStands | client/src/hooks/useMessageChime.ts:41-44 | a tab's first word stands whatever it says later |
| ChimeSounds.NeverTwiceNorTooSoon | client/src/hooks/useMessageChime.ts:50-82 | over every run a tab never sounds for a message that has sounded, here or elsewhere as told, and a chime that is no ring never within 2,000 ms of an earlier one |
| Chime.ChimeTab.Remember | client/src/hooks/useMessageChime.ts:41-44 | the first word of each tab counts |
| Chime.ChimeTab.HeardPlayed | client/src/hooks/useMessageChime.ts:53-56 | the latest chime heard of is remembered |
| Chime.ChimeTab.Decide | client/src/hooks/useMessageChime.ts:70-78 | plays by the rule, and then remembers it did |
| Chime.PlaysOnlyWhenPicked | client/src/lib/message-chime-policy.ts:95-105 | a tab that has heard every word plays if and only if its history allows it and it is the one all tabs pick |
| Chime.AtMostOnePlays | client/src/hooks/useMessageChime.ts:60-82 | over every run in which tabs decide once they have heard every tab, at most one plays |
| Chime.ThePickedOnePlays | client/src/hooks/useMessageChime.ts:60-82 | when no tab is quiet exactly one tab is picked, and it plays when its history allows |

## Left out

- RealtimeWorld.NobodyStaysStale: says nothing of how current a query is whose last read failed, or that is hidden and flagged, because the code leaves each of them to a later read.
- RealtimeWorld.StepKeeps: does not model a cancelled read reverting a query, data set by a page while a read is on its way, or `meta.entities` that is not a list of strings.
- Emit.EmitEntities: logging is left out, and remembering, which only writes memory, does not fail.
- EntitySync.QueryCache.FindAll: stands for the library's cache; its notifications are the steps that start, add and remove queries.
- ConnectStorm.EveryConnectIsCovered: an unsubscribe, which clears the trailing timer, is not modelled.
- ApplyQueueRuns.CurrentHasItsPipeline: holds of runs in which the watchdog never fires on a switch and no loss comes during one; outside them the agreement fails exactly as `WatchdogOnSwitch` and `LossDuringSwitch` say.
- ApplyQueueRuns.QuietRunIsShort: at most one operation is awaited at a time; one the watchdog gave up on may still be under way in the browser, and is modelled as one that may yet attach a pipeline.
- ApplyQueue.Applier.Prewarm: the hooks told of state and errors, and a `dropPipeline` that throws, are not modelled.
- AuthEndings.SessionsEndOnlyOnRefusal: sign-outs the member asks for, and those another tab's storage event brings, are steps of the run but not endings of a check; that a signed-out tab stays signed out is not claimed, since a refresh that lands after a sign-out installs its tokens.
- AuthChecks.ChecksEnd: with no member in place a check asks until an answer lands, as the code means it to.
- AuthStore.Store.RefreshAccessToken: the 401 interceptor, the proactive timer and the visibility handler appear as a refresh asked for at any time; reading Retry-After is a parameter, and tokens are their subject and a serial number.
- AuthStore.Store.CheckSession: the query cache's owner, Try again and the timer a newer check ends early are not modelled; a wait may end at any time.
- ChatHistory.MergeChatHistory: a timestamp is the number it parses to; the unread counter and `addChatMessage` are left out.
- TakeDown.OnlyTheGoneLeave: the server lists rows, so a message whose author the viewer has blocked counts as no longer listed; who may read rooms does not change between the two pages.
- Rescore.LastWordsAreScored: scoring itself, and the fan-out after it, are left out; a rescoring that fails ends like one that succeeds.
- Countdown.ShownSeconds: which sync messages a phase ignores, the roster fields of a snapshot and the seq guard of the socket's snapshots are left out, being single comparisons.
- CountdownShown.PauseFreezes: a pause without a number of seconds, which the server does not send, leaves those that stand; the code would show none.
- Countdown.RelativeIsExact: times are whole milliseconds and whole seconds, as the server sends them.
- Scanner.FindUseQueryCalls: characters are Unicode scalar values rather than UTF-16 units; `checkFile`, its regular expressions and the walk over directories are left out. Braces inside a template literal's `${}` are not counted, as in the code.
- Chime.AtMostOnePlays: a tab whose vote arrives after another has decided, tabs that open or close during the vote, the forgetting of old votes, `quietHere` and the repeated ring are left out.
- SQL routes, fan-out audiences, migrations, rate limiting, the media pipeline, React components and token verification: configuration, wrappers over libraries, or meaning that lives in Postgres.
