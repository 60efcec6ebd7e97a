# Verified model of the tunnel client's coordination core

The Go client of this repository keeps many workers talking to TURN relays. Its difficult part is coordination:
a scheduler that hands out relay endpoints, a shared credential cache with single-flight fetching, a group-level
refresh on top of it, a serialized and throttled fetcher behind a flood-control gate, once-only delivery of the
WireGuard config, a chunked packet dispatcher, two watchdogs, and an RTP-like packet wrapper with a counter-derived
AEAD nonce. This project models those parts in Dafny and proves what they guarantee over all inputs, all
interleavings and all runs.

How it is organised:

- **State machines over all interleavings** (`TurnProtocol`, `CredCache`, `GroupRefresh`, `VkFetcher`,
  `ConfigCoordinator`). Every critical section and every channel operation is one atomic step of an explicit state,
  for any number of callers. A run is a sequence of states and the actions between them. Each machine has an
  invariant kept by every step (`StepKeepsInv`), hence true in every reachable state (`ReachableInv`), and theorems
  over whole runs (`TurnTheorems`, `CredTheorems`, and the last section of each machine). `TurnHistory`, `CredCalls`,
  `GroupVerdicts` and `VkHistory` say what the state stands for and what each step answers, exactly; the `Progress`
  modules show that nobody is ever stuck; `TurnStaleReading` and `RefreshSpacing` build
  complete runs in which something surprising happens.
- **Objects in the source's own form** (`TurnScheduler`, and the classes in `CredCell`, `GroupRefresh`, `FloodGate`,
  `ConfigCoordinator`, `Dispatcher`, `HealthWatchdog`, `ZeroWorkers`, `ObfsPacket`, `Handshake`). Each locked section
  is a method on mutable objects whose contract equates the new abstract state with the very function that the
  corresponding machine takes as its step, so the theorems about the machine are about these methods. The exceptions
  are `FetchOp` and `FetchSlot` in `CredCell`: their contracts speak of objects where `CredCache` has a map of
  operations, and nothing formal relates the two.
- **Incremental detectors against history** (`HealthWatchdog`, `ZeroWorkers`, with `HealthHistory`, `ZeroHistory` and `ZeroCooldown`): what a handful of mutable fields decide
  is proved to be justified by the complete sequence of samples.

Conventions: time is a natural number of milliseconds with 0 for Go's zero `time.Time`; a notify channel that is closed
and replaced is an epoch counter; the identity of a scheduler state object is a number stamped at its creation.
The clock of a machine only moves forward, but a caller of the scheduler may use a reading that has become stale, as in
the source, where the clock is read before the lock is taken.

Results that differ from what comments or callers expect, each stated exactly:

- **Packet padding.** A drawn padding of 255 bytes makes the length byte wrap to 0 and the packet is lost
  (`ObfsPacket.RoundTrip`). Every draw survives exactly for a PaddingMax of at most 255
  (`ObfsPacket.EveryDrawSurvivesExactlyIf`); the shipped settings are 24 and 60.
- **Empty link.** Invalidation takes a slot with an empty link for an empty slot while reads do not, so a cache for the
  empty link keeps returning a failed generation (`CredCell.EmptyLinkDefeatsInvalidation`); it works exactly for
  non-empty links (`CredCell.InvalidationWorksExactlyIf`). This concerns the function taken alone: both parsers of link
  lists drop empty entries (go_client/group.go:311-325, go_client/ios_bridge.go:506-518). All generation theorems hold
  for every non-empty link.
- **Sleep taken for silence.** A watchdog tick that finds no counters moves `lastTick` and returns before the gap test,
  so a long suspension can be absorbed (`HealthWatchdog.SleepCanBeMistakenForSilence`);
  `HealthWatchdog.SleepMistakenExactlyIf` characterises the schedules on which it can.
- **Counters of two attempts.** The watchdog outlives transport attempts, whose counters start anew, and compares numbers
  only, so a new attempt can be restarted on the silence of the one before (`HealthWatchdog.NewAttemptPaysForOld`);
  `HealthWatchdog.SpansAttemptsExactlyIf` gives the exact condition.
- **Stale clock readings.** No endpoint is granted within 60 s of a failed probe (`TurnTheorems.FailedProbeRests`), but
  after a success in between a grant can rest on a clock *reading* from inside them
  (`TurnStaleReading.StaleReadingAfterSuccess`), and only then (`TurnTheorems.EarlyReadingNeedsSuccess`);
  `TurnTheorems.EarlyReadingExactlyIf` is exact in the failure count and the holders at that moment.
- **Cooldown of the zero-worker watchdog.** The 90 s count from the recorded acceptance, and can be missed in two ways.
  The record is written in a separate locked section; while it is outstanding a concurrent call can request again
  (`ZeroCooldown.PendingRecordDefeatsCooldown`). And the runtime of a call is read before the lock, so a stalled call of
  another runtime can wipe the record (`ZeroCooldown.ForeignSampleErasesRecord`).
  `ZeroCooldown.CooldownEnforcedExactlyIf` says that there are no other ways, `ZeroCooldown.EarlyRequestExactlyIf`
  which schedules of calls do it; calls of one runtime that follow one another keep the distance
  (`ZeroWorkers.SequentialRequestsApart`).
- **Refresh interval.** The 15 seconds are a difference of two readings of the wall clock in whole seconds, so they
  bound neither elapsed time under clock changes nor, exactly, elapsed time at all: two refreshes can be 14001 ms apart
  with a perfect clock, and follow at once when the clock is set forward 15 s. `RefreshSpacing.SpacingExactlyIf` is
  exact in the elapsed time and the shift. The stored second counts only when positive, because 0 means "never"
  (`GroupRefresh.IntervalEnforcedExactlyIf`).

## Model

| member | source | states |
|---|---|---|
| `TurnProtocol.ReachableInv` | go_client/turn_scheduler.go:105-325 | In every reachable state, for any interleaving of any callers with cancellations and Resets: use counts equal outstanding reservations and unfinished permits, rows in use stay in the table, a pending reservation points at the very object in the table, tokens equal permits not handed back and fit the channel, pauses and probes are well-formed, parked callers are really obstructed, and an endpoint has at most one multi-candidate holder |
| `TurnProtocol.StepConserves` | go_client/turn_scheduler.go:118-143 | Every step, Reset included, conserves reservations, pointers and tokens |
| `TurnProtocol.FinishNeverBlocks` | go_client/turn_scheduler.go:247-256 | A permit's receive from the global channel never blocks and its `active > 0` guard never fails |
| `TurnProtocol.StepPaused` | go_client/turn_scheduler.go:188-209 | Always: probing implies a set and expired pause, a set pause implies at least two timeouts and ends at most 60 s ahead |
| `TurnProtocol.StepParks` | go_client/turn_scheduler.go:145-174 | No step frees a candidate of a parked caller without replacing the notify channel it waits on |
| `TurnProtocol.StepExclusive` | go_client/turn_scheduler.go:177-220 | At most one outstanding multi-candidate reservation or permit per endpoint, in any mixture with single-candidate callers |
| `TurnProtocol.MultiGrantFindsNoHolder` | go_client/turn_scheduler.go:217-220 | A caller with alternatives is only given an endpoint that nobody holds, bypassing callers included |
| `TurnTheorems.NoLostWakeup` | go_client/turn_scheduler.go:145-174 | While the captured notify channel is current and the timer has not passed, picking again at any reading would find nothing |
| `TurnTheorems.NoTimerMeansHeld` | go_client/turn_scheduler.go:148-155 | A caller parked without a timer has every candidate held by some existing caller |
| `TurnTheorems.EndOfHoldSignals` | go_client/turn_scheduler.go:136-142 | Whatever ends a hold, by cancellation or finish, lets every parked caller wake |
| `TurnProgress.NobodyIsStuck` | go_client/turn_scheduler.go:105-175 | In every run each caller inside Acquire has a continuation in which it gets its permit, without cancellations or Reset, for any positive capacity |
| `TurnTheorems.FailuresAreTallied` | go_client/turn_scheduler.go:258-289 | In every run the failure count of an endpoint is the number of timeout outcomes finished since its last success or the last Reset |
| `TurnHistory.RecordIsTold` | go_client/turn_scheduler.go:118-325 | In every run an endpoint's failures, pause, probe mark and last use are what its history says: looks by callers with alternatives, grants, settled handshakes and Resets, told without the table |
| `TurnHistory.LastUsedIsLastGrant` | go_client/turn_scheduler.go:125-126 | In every run the last use of an endpoint is the clock reading of its last grant still remembered; only a Reset of an endpoint nobody holds forgets it |
| `TurnHistory.GrantRule` | go_client/turn_scheduler.go:177-245 | In every run a caller with alternatives is turned away exactly if no candidate is available; otherwise it gets its preferred endpoint if that is available, and else an available one whose last grant was no later than that of any other |
| `TurnHistory.ParkRule` | go_client/turn_scheduler.go:211-225 | A caller turned away waits for the present notify channel and for the first running pause of its candidates to end, if one is running |
| `TurnHistory.SingleIsGranted` | go_client/turn_scheduler.go:178-183 | A caller without alternatives gets its endpoint at once |
| `TurnHistory.OpenExactly` | go_client/turn_scheduler.go:105-175 | What a caller can do where it stands, and what it waits for |
| `TurnHistory.LeavesAlone` | go_client/turn_scheduler.go:105-325 | What a step leaves alone: clock, tokens, notify channel and other callers each change by their own steps only |
| `TurnTheorems.DegradedOnlyAsProbe` | go_client/turn_scheduler.go:199-209 | A caller with alternatives gets an endpoint with two or more timeouts only as a probe, on a reading past its pause |
| `TurnTheorems.RunKeepsPause` | go_client/turn_scheduler.go:188-209 | A pause is never shortened by anything but a success on that endpoint or a Reset |
| `TurnTheorems.NoGrantInsidePause` | go_client/turn_scheduler.go:211-216 | After a finish armed the pause, until a success or Reset, no grant to a caller with alternatives uses a reading inside the 60 s, stale readings and bypassing callers notwithstanding |
| `TurnTheorems.FailedProbeRearms` | go_client/turn_scheduler.go:270-289 | If all callers have alternatives and no Reset intervened, a failed probe pauses its endpoint for a further 60 s |
| `TurnTheorems.FailedProbeRests` | go_client/turn_scheduler.go:188-289 | In such runs no grant whatever of the endpoint is made within 60 s of the failed probe |
| `TurnTheorems.FirstGrantAfterFailedProbe` | go_client/turn_scheduler.go:188-289 | The first grant after a failed probe even rests on a clock reading at least 60 s later; no success can shorten the rest |
| `TurnTheorems.EarlyReadingNeedsSuccess` | go_client/turn_scheduler.go:258-264 | A grant on a reading from inside the 60 s implies a success on the endpoint since the pause was set |
| `TurnTheorems.EarlyReadingExactlyIf` | go_client/turn_scheduler.go:188-233 | Where all callers have alternatives and no Reset intervenes, a caller that prefers the endpoint gets it on a reading from inside the 60 s if and only if fewer than two timeouts are counted since its last success and nobody holds it |
| `TurnStaleReading.StaleReadingAfterSuccess` | go_client/turn_scheduler.go:118-122 | A complete run in which that happens: the clock is read before the lock, the next probe succeeds in between, and the old reading is let in |
| `TurnTable.PickGrants` | go_client/turn_scheduler.go:192-244 | A granted endpoint was listed, idle and not paused; a free preferred endpoint wins; otherwise none free was used longer ago |
| `TurnTable.PickBlocks` | go_client/turn_scheduler.go:211-225 | A pick fails exactly when every candidate is paused or in use, and the reported wait is bounded by every pause that blocks |
| `TurnTable.ScanSettles` | go_client/turn_scheduler.go:188-209 | After the scan, scanning any candidate again at the same reading changes nothing, even with repeated candidates |
| `TurnTable.ScanIsScanned` | go_client/turn_scheduler.go:184-221 | The scan keeps identity, use counts, failures and set pauses of all rows, and adds only blank ones |
| `TurnTable.LeastRecentIsFirst` | go_client/turn_scheduler.go:235-244 | The choice was used no later than any candidate and strictly earlier than every candidate before it |
| `TurnTable.EarliestPause` | go_client/turn_scheduler.go:211-216 | The minimum of the running pauses of the candidates, attained by one of them, 0 if none runs |
| `TurnTable.PreferredIsFirst` | go_client/turn_scheduler.go:110-116 | The preferred key is that of the first candidate carrying the URL, and absent exactly when none does |
| `TurnScheduler.EndpointState.Scan` | go_client/turn_scheduler.go:188-209 | One state object moves exactly as one row does under a scan |
| `TurnScheduler.EndpointState.Finish` | go_client/turn_scheduler.go:253-289 | One state object moves exactly as one row does when a handshake ends (told from history in `TurnHistory.RecordIsTold`) |
| `TurnScheduler.Scheduler.StateLocked` | go_client/turn_scheduler.go:80-88 | Returns the object in the map, creating a blank one only for a missing key and keeping all others |
| `TurnScheduler.Scheduler.ScanAll` | go_client/turn_scheduler.go:184-221 | The mutating loop computes the scan of the abstract table, the free candidates in order and the earliest pause, and keeps object identities |
| `TurnScheduler.Scheduler.Choose` | go_client/turn_scheduler.go:227-244 | The two selection loops find the first preferred free candidate, else the first least recently used |
| `TurnScheduler.Scheduler.Pick` | go_client/turn_scheduler.go:177-245 | The loops over mutable objects refine the pick on the abstract table |
| `TurnScheduler.Scheduler.Begin` | go_client/turn_scheduler.go:105-146 | A round of Acquire up to its wait: an empty list is an error that changes nothing, otherwise the preferred URL is resolved and the locked section reserves or reports what to wait for |
| `TurnScheduler.Scheduler.TryReserve` | go_client/turn_scheduler.go:118-146 | The locked section of Acquire: reserves and returns the very object in the map, or returns the current notify epoch |
| `TurnScheduler.Scheduler.TakeSlot` | go_client/turn_scheduler.go:129-135 | The send succeeds exactly while there is room, and then yields an unfinished permit |
| `TurnScheduler.Scheduler.CancelReservation` | go_client/turn_scheduler.go:136-141 | Goes through the retained object whatever the map holds: the row it stands for loses one reservation if it is still there, otherwise the table is untouched; waiters are signalled |
| `TurnScheduler.Scheduler.Finish` | go_client/turn_scheduler.go:247-293 | One token leaves the channel, one row changes, waiters are signalled, objects keep their identity |
| `TurnScheduler.Scheduler.Reset` | go_client/turn_scheduler.go:306-325 | The new map holds exactly the objects in use, the same objects under the same keys, with their assessment cleared |
| `TurnScheduler.Permit.Finish` | go_client/turn_scheduler.go:298-302 | However often it is called, slot and reservation are given back once |
| `TurnCandidates.Build` | go_client/turn_scheduler.go:354-390 | Fails exactly on a malformed URL or when all are blank; otherwise lists the first occurrences in order, with pairwise distinct keys and none missing |
| `TurnCandidates.KindsExactly` | go_client/turn_scheduler.go:358-368 | A URL is skipped exactly if nothing is left after trimming, and otherwise malformed exactly if it does not parse |
| `TurnCandidates.CandidateExactly` | go_client/turn_scheduler.go:361-385 | A candidate carries the trimmed URL, and two URLs are one endpoint exactly if their addresses fold alike |
| `TurnCandidates.NextUniqueUrl` | go_client/turn_scheduler.go:394-423 | Empty when the list cannot be built or has one endpoint, otherwise the next endpoint of the built list |
| `TurnCandidates.NextUrl` | go_client/turn_scheduler.go:400-422 | On a built list the search for a different endpoint always returns the cyclic successor, or the first for an unknown endpoint |
| `TurnCandidates.UnknownStartsOver` | go_client/turn_scheduler.go:407-414 | An endpoint that is not listed is followed by the first candidate |
| `TurnCandidates.RotationVisitsAllOnce` | go_client/turn_scheduler.go:394-423 | Rotating from any listed endpoint visits every unique endpoint exactly once before it returns to the start |
| `CredCell.InvalidationSupersedes` | go_client/creds.go:223-258 | An invalidation for an issued generation g clears the slot exactly when it holds g, touches no other generation, and leaves g out of reach |
| `CredCell.EmptyLinkDefeatsInvalidation` | go_client/creds.go:236-239 | Concrete case: with an empty link the invalidated generation stays readable |
| `CredCell.InvalidationWorksExactlyIf` | go_client/creds.go:236-254 | Invalidating the generation in the slot puts it out of reach if and only if the link is non-empty |
| `CredCell.CredCache.Read` | go_client/creds.go:316-326 | A read succeeds exactly for the same link, before expiry, with addresses, and returns the slot |
| `CredCell.CredCache.Invalidate` | go_client/creds.go:223-258 | The mutating form refines the invalidation step |
| `CredCell.CredCache.Publish` | go_client/creds.go:423-447 | The mutating form refines the revision-guarded publication step |
| `CredCell.FetchSlot.Join` | go_client/creds.go:344-365 | Joins the registered uncancelled fetch, else registers a new one with one waiter; the result is never cancelled |
| `CredCell.FetchSlot.Release` | go_client/creds.go:449-453 | A finished fetch clears the slot only if it is still its own |
| `CredCell.FetchOp.Abandon` | go_client/creds.go:398-405 | The fetch is cancelled exactly when no waiter remains |
| `CredCache.ReachableInv` | go_client/creds.go:303-453 | In every reachable state: the slot is empty or carries exactly the current generation, waiter counts equal waiting callers, every unfinished fetch is registered or cancelled, fetchMu has one holder, operation records agree with the slot |
| `CredCache.StepWaiters` | go_client/creds.go:344-371 | Every step keeps `waiters` equal to the number of callers waiting on the operation |
| `CredCache.StepOneLive` | go_client/creds.go:344-365 | Every step keeps each unfinished fetch registered or cancelled |
| `CredTheorems.PublicationGuarded` | go_client/creds.go:423-445 | If an operation publishes, nothing was published and nothing invalidated between its creation and its publication |
| `CredTheorems.OnePublisherPerRevision` | go_client/creds.go:350-365 | Of all operations started at one revision, abandoned ones included, at most one ever publishes |
| `CredTheorems.RevisionCountsBumps` | go_client/creds.go:250-253 | The revision counts exactly the publications and successful invalidations, and nothing else changes the slot |
| `CredTheorems.ReadReturnsCurrent` | go_client/creds.go:316-325 | Every successful call returns exactly the current, positive generation with at least one address |
| `CredCalls.CheckReadsExactlyIf` | go_client/creds.go:316-342 | A check of the slot, with fetchMu or without, returns what is there exactly if it is usable, goes on otherwise, and never starts a fetch |
| `CredCalls.FetchOnlyAfterMiss` | go_client/creds.go:332-365 | In every run whoever creates or joins a fetch had, as the last thing it did, found the slot unusable while holding fetchMu |
| `CredCalls.NobodyElseBetween` | go_client/creds.go:330-365 | From that check on it has held fetchMu, and nobody else checked under it, created or joined |
| `CredCalls.LockProtects` | go_client/creds.go:330-365 | While a caller has fetchMu nobody else touches the registration or any operation's waiters |
| `CredCalls.JoinsExactlyIf` | go_client/creds.go:344-365 | Joins exactly an uncancelled registered fetch; otherwise creates one from the present revision and registers it |
| `CredCalls.FailureHasCause` | go_client/creds.go:303-406 | In every run a call fails only because its own context ended, the slot was unusable when it read the result, its fetch failed, or its fetch was refused because the slot had changed since it began |
| `CredCalls.SuccessIsServed` | go_client/creds.go:374-391 | A waiter whose fetch published goes on to read, and reads whatever is usable |
| `CredCalls.WaiterExactly` | go_client/creds.go:368-405 | A waiter leaves with the operation's error, goes on to read, or leaves cancelled; each gives its place back, and only the last one's cancellation cancels the fetch |
| `CredCalls.GoroutineExactly` | go_client/creds.go:408-453 | Every step of the fetching goroutine: what it records, publishes, refuses, clears, cancels and closes, and what it leaves alone |
| `CredCalls.DoneMeansCancelled` | go_client/creds.go:408-411 | In every run a closed done channel means that the fetch's context is cancelled |
| `CredCalls.OpenExactly` | go_client/creds.go:303-453 | What callers and fetches can do where they stand, and when they wait for fetchMu or a fetch |
| `CredCalls.LeavesAlone` | go_client/creds.go:223-453 | What a step leaves alone: slot, fetchMu, registration, operations and other callers each change by their own steps only |
| `CredTheorems.InvalidatedNeverReturns` | go_client/creds.go:223-257 | After an invalidation request for g no later read of the run returns g or anything older |
| `CredTheorems.ReadsNeverGoBack` | go_client/creds.go:379-391 | Successful reads of a run have non-decreasing generations |
| `CredTheorems.ReadHasSource` | go_client/creds.go:432-442 | Whatever a call returns is the result of a fetch published less than nine minutes before, neither replaced nor invalidated since |
| `CredTheorems.WaiterNeverSeesOlder` | go_client/creds.go:379-396 | A woken waiter that finds a usable slot never finds a generation older than its own operation's |
| `CredTheorems.AbandonAbortsOnlyAlone` | go_client/creds.go:398-405 | A waiter's cancellation aborts the fetch exactly when nobody else waits on it |
| `CredTheorems.OnlyLastWaiterOrEndCancels` | go_client/creds.go:398-411 | Nothing but the last waiter leaving or the fetch's own end cancels a fetch |
| `CredTheorems.AtMostOneLiveFetch` | go_client/creds.go:344-365 | At most one live fetch per link, and it is the registered one |
| `CredTheorems.OpOverRun` | go_client/creds.go:408-453 | Over a run an operation keeps its starting revision and only moves forward |
| `CredTheorems.DoneClosedOnce` | go_client/creds.go:408-453 | The done channel of a finished operation was closed exactly once in the run, after the slot had been released |
| `CredTheorems.OpNeverStuck` | go_client/creds.go:408-453 | An unfinished operation's next step is enabled, or waits only for fetchMu, whose holder's own next step gives it back |
| `CredTheorems.DoneReachable` | go_client/creds.go:408-453 | From every reachable state there is a continuation that closes the done channel without help from its waiters |
| `CredTheorems.DoneStays` | go_client/creds.go:408-453 | A closed channel stays closed, so a waiter that comes late still finds it so |
| `CredProgress.CallReturns` | go_client/creds.go:303-406 | From every reachable state each cache call has a continuation in which it returns, without any context ending |
| `GroupRefresh.ReachableInv` | go_client/group.go:410-532 | For several groups over one cache, in every reachable state: every generation in circulation was issued by the cache, a network refresh can only return something newer than what failed, and a refresh in progress is the registered one with one owner |
| `GroupRefresh.SuccessMeansNewer` | go_client/group.go:410-532 | If RefreshCreds returns true for a positive issued generation, the call observed or installed a strictly newer one, on every path and under concurrent refreshes by others |
| `GroupRefresh.SeenIsGroupGeneration` | go_client/group.go:436-529 | The generation a call bases its success on is the group's own right after the deciding step |
| `GroupRefresh.NoOtherSuccess` | go_client/group.go:410-532 | The listed success paths are all there are |
| `GroupVerdicts.LooksEndExactlyIf` | go_client/group.go:412-454 | The looks at the group, before the lock and under it, end the call exactly if the group is newer than what failed, and then with true |
| `GroupVerdicts.CacheIsAskedExactlyIf` | go_client/group.go:426-461 | The cache is asked exactly if it shows something newer, before the lock and under it |
| `GroupVerdicts.TakenExactlyIf` | go_client/group.go:432-470 | What the cache then gives is installed and ends the call with true exactly if it is newer |
| `GroupVerdicts.DecidesExactlyIf` | go_client/group.go:473-502 | Under the lock a running refresh is waited for; otherwise the call is refused exactly within 15 s of the last refresh and starts one after that |
| `GroupVerdicts.WaitEndsExactlyIf` | go_client/group.go:478-484 | A finished wait ends with true exactly if nothing in particular had failed or the group is newer by now |
| `GroupVerdicts.NetworkEndsExactlyIf` | go_client/group.go:520-531 | A network call's credentials are installed, and the call ends with true, exactly if there are any |
| `GroupVerdicts.NoHasCause` | go_client/group.go:410-532 | In every run a call says false only for a wait given up, the 15 s refusal, a failed network call of its own, or a finished wait after which the group is not newer |
| `GroupVerdicts.DecisionAfterLook` | go_client/group.go:443-454 | Before a call waits, is refused or starts a refresh it has held the group lock and found the group not newer |
| `GroupVerdicts.CredsChangeByInstall` | go_client/group.go:436-529 | Nothing but an install changes a group's credentials, and an install puts exactly its own there |
| `GroupVerdicts.WaiterProfits` | go_client/group.go:473-484 | Once something newer has been installed in the group, by whomever, and nothing older since, a finished wait ends with true |
| `GroupVerdicts.OpenExactly` | go_client/group.go:410-532 | What a worker can do where it stands: it waits for its cache call, the group lock and the refresh it joined, and for nothing else |
| `GroupVerdicts.RegistersExactly` | go_client/group.go:491-511 | A started refresh is registered under the second read, and its end unregisters it and closes its channel |
| `GroupVerdicts.LeavesGroupAlone` | go_client/group.go:410-532 | In its own group a step changes only what it is about |
| `GroupRefresh.RefreshReadingsApart` | go_client/group.go:491-501 | The seconds *read* at two network refreshes of one group differ by at least 15 in every run, once the first is positive |
| `GroupRefresh.RefreshesApart` | go_client/group.go:491-501 | The time that passes between two such refreshes plus the forward shift of the wall clock in between is at least 14001 ms |
| `RefreshSpacing.SpacingExactlyIf` | go_client/group.go:491-501 | For every elapsed time and every shift, some run has two refreshes of a group that far apart if and only if the two sum to at least 14001 ms; the runs are built from the initial state |
| `RefreshSpacing.SpacingExamples` | go_client/group.go:491-501 | With an undisturbed clock 14001 ms is attained; with the clock set forward 15 s two refreshes follow at once |
| `GroupRefresh.IntervalEnforcedExactlyIf` | go_client/group.go:491-496 | With no refresh running the interval is enforced against every reading if and only if the stored second is positive |
| `GroupRefresh.EndingIsRegistered` | go_client/group.go:504-511 | A refresh that ends is the registered one and its channel was not closed before |
| `GroupProgress.ReachableOrderly` | go_client/group.go:443-511 | In every reachable state the group lock is held exactly by the worker in the locked part, a registered refresh has an owner at work, and whoever waits for a refresh waits for a registered or a finished one |
| `GroupProgress.LockFrees` | go_client/group.go:443-502 | From every such state the group lock can become free, although its holder may be waiting for a cache call |
| `GroupProgress.RefreshIsOver` | go_client/group.go:504-511 | A refresh in progress can come to its end and close its channel, although ending it needs the group lock |
| `GroupProgress.NobodyIsStuck` | go_client/group.go:410-532 | In every run each worker inside RefreshCreds has a continuation in which it comes out, without any context ending |
| `GroupRefresh.Coordinator.Decide` | go_client/group.go:473-502 | The section under the lock refines the machine's decision: wait, refuse, or register |
| `GroupRefresh.Coordinator.End` | go_client/group.go:504-511 | The deferred clean-up refines the machine's end step |
| `FloodGate.BackoffEscalates` | go_client/flood_gate.go:173-230 | The n-th flood in a row closes the gate for 60, 120, 240, then always 300 s plus jitter, unless the server named a wait; one success starts over |
| `VkHistory.GateIsTold` | go_client/flood_gate.go:173-230 | In every run the gate's step and pause are what the reports say: the floods since the last success, and the end of the pause of the last one |
| `VkHistory.RoundExactly` | go_client/flood_gate.go:105-157 | One round at the gate: kept out until the pause ends, then let through without a flood on record, and otherwise as the probe unless one is out |
| `VkHistory.ReachableProbeOwned` | go_client/flood_gate.go:127-203 | In every run, if the gate takes a probe to be out, some fetcher inside carries the mark |
| `VkHistory.AdmittedAfterPause` | go_client/flood_gate.go:126-156 | In every run, once the pause is over and nobody inside carries a mark, the next round is admitted, as the probe exactly if a flood has not been followed by a success |
| `VkHistory.SuccessOpensGate` | go_client/flood_gate.go:216-230 | After a success every round passes at any reading |
| `VkHistory.FloodThenProbe` | go_client/flood_gate.go:173-213 | After a flood every round is kept out until the pause ends, and the first one then is the probe |
| `VkHistory.ReleaseLetsProbe` | go_client/flood_gate.go:161-170 | A released probe lets the next round after the pause probe |
| `FloodGate.FloodGate.TryAcquire` | go_client/flood_gate.go:105-157 | One locked round of Acquire refines the gate's admission step |
| `FloodGate.FloodGate.ReleaseProbe` | go_client/flood_gate.go:161-170 | Refines the release step: it signals exactly when a probe was marked |
| `FloodGate.FloodGate.ReportFlood` | go_client/flood_gate.go:173-213 | Refines the flood step and returns the length of the pause |
| `FloodGate.FloodGate.ReportSuccess` | go_client/flood_gate.go:216-230 | Refines the success step |
| `VkFetcher.ReachableInv` | go_client/creds.go:484-566 | In every reachable state: one token shared between semaphore and holder, recorded stages spaced, stamp and gate cover the last stage, parked fetchers are really kept out |
| `VkFetcher.StageStartsClean` | go_client/creds.go:501-565 | Whenever an HTTP stage starts, no other is running, 3 s have passed since the last ended, the pause its flood report asked for is over, and the gate is not flooded |
| `VkFetcher.StagesApart` | go_client/creds.go:513-542 | Any two stages of a run are ordered with 3 s between them, and a flooded stage keeps every later one away for its whole pause |
| `VkFetcher.HolderUnique` | go_client/creds.go:464-482 | At most one fetcher holds the request lock |
| `VkFetcher.ReleaseNeverDrops` | go_client/creds.go:477-482 | Handing the token back never finds the semaphore full |
| `VkFetcher.FloodCostsAMinute` | go_client/flood_gate.go:173-199 | A flood report without a server wait keeps the next stage away for at least a minute |
| `VkFetcher.GateNoLostWakeup` | go_client/flood_gate.go:110-150 | While the captured channel is current, a parked fetcher asking again before its timer would be turned away |
| `VkHistory.GoesOnExactlyIf` | go_client/creds.go:507-534 | The lock holder goes on exactly if its context stands and the gate is not flooded, before the throttle and after it |
| `VkHistory.SleepsExactlyIf` | go_client/creds.go:514-526 | It sleeps exactly if less than three seconds and the jitter have passed since the last stamp, and until then |
| `VkHistory.StampIsTold` | go_client/creds.go:538-542 | In every run the stored time is that of the last stamp after an HTTP stage |
| `VkHistory.MarkKept` | go_client/creds.go:494-565 | Only its own report of success or flood takes the probe mark from a fetcher |
| `VkHistory.OpenExactly` | go_client/creds.go:484-566 | What a fetcher can do where it stands: only the gate, the lock and its timer hold it up |
| `VkHistory.LeavesAlone` | go_client/creds.go:484-566 | What a step leaves alone: gate, lock, stamp, record of stages and other fetchers each change by their own steps only |
| `VkProgress.NobodyIsStuck` | go_client/creds.go:484-566 | In every run a fetcher that has not had its HTTP stage has a continuation in which it starts it, without any context ending |
| `VkProgress.HoldersCanLeave` | go_client/creds.go:484-566 | In every run a fetcher that holds the lock or is past it has a continuation in which it is gone |
| `ObfsNonce.NonceRepeatsExactlyEvery2To48` | go_client/obfs.go:137-139 | For every initial seq and ts two counters give the same nonce if and only if they agree modulo 2^48 |
| `ObfsNonce.NoncesDistinctBelow2To48` | go_client/obfs.go:108-139 | Below 2^48 packets no nonce is used twice |
| `ObfsNonce.StrideIsInvertible` | go_client/obfs.go:138-138 | 960*2^16 + 1 is a unit modulo 2^32 |
| `ObfsNonce.TsAgrees` | go_client/obfs.go:138-138 | With equal low halves, timestamps agree exactly modulo 2^48 of the counter |
| `ObfsNonce.NonceInjective` | go_client/obfs.go:108-114 | The 12 nonce bytes determine SSRC, sequence number and timestamp |
| `ObfsNonce.CountsUp` | go_client/obfs.go:134-138 | From the initial values the sequence number goes up by one a packet and the timestamp by 960, with one more whenever the low 16 bits start over |
| `ObfsPacket.HeaderLayout` | go_client/obfs.go:156-160 | The header fields of section 5.1 of RFC 3550, byte by byte in network order |
| `ObfsPacket.NonceLayout` | go_client/obfs.go:108-114 | The nonce is SSRC, sequence number, two zeros and timestamp, byte by byte |
| `ObfsPacket.PadRandExactly` | go_client/obfs.go:141-147 | The padding drawn is the random byte's remainder by the limit, and none without a positive limit |
| `ObfsPacket.RtpExactly` | go_client/obfs.go:231-240 | A packet passes for RTP exactly with 13 bytes, version 2 and payload type 96 or 111 under either marker bit |
| `ObfsPacket.WindowUsesDistinctNonces` | go_client/obfs.go:134-139 | Any 2^48 consecutive packets use distinct nonces, even across the wrap of the 64-bit counter |
| `ObfsPacket.HeaderRoundTrip` | go_client/obfs.go:156-196 | The header fields read back rebuild the sender's nonce |
| `ObfsPacket.RoundTrip` | go_client/obfs.go:120-229 | A wrapped packet unwraps to its payload exactly when fewer than 255 padding bytes were drawn, otherwise it is rejected for its padding |
| `ObfsPacket.EveryDrawSurvivesExactlyIf` | go_client/obfs.go:141-177 | For every key, payload and counter, all random draws survive if and only if PaddingMax is at most 255 |
| `ObfsPacket.ShippedRoundTrip` | go_client/obfs.go:120-240 | With PaddingMax at most 255 and a shipped payload type every packet is recognised and unwraps to its payload, whatever was drawn |
| `ObfsPacket.UnwrapBounds` | go_client/obfs.go:184-229 | From arbitrary bytes unwrapping yields an error or 1 to `len(dst)` bytes that the AEAD accepted under the header |
| `ObfsPacket.PayloadEndExactly` | go_client/obfs.go:197-205 | The ciphertext ends at the end of the packet without the padding bit; with it as many bytes earlier as the last byte says, and is refused exactly if that is none or too many |
| `ObfsPacket.RefusedExactly` | go_client/obfs.go:184-229 | Each reason for turning a packet away holds exactly in its case, in order, and otherwise the AEAD decides |
| `ObfsPacket.ObfsState.Wrap` | go_client/obfs.go:120-180 | The in-place form leaves the specified bytes in the reused buffer, advances the counter with wrap-around, keeps the first key's cipher, and changes nothing on an error |
| `ObfsPacket.Unwrap` | go_client/obfs.go:184-229 | The in-place form writes exactly the specified plaintext to the front of the destination and nothing behind it |
| `ConfigCoordinator.ReachableInv` | go_client/config_coordinator.go:27-126 | In every reachable state a session is inside the once-guard exactly while its operation is in progress, an incomplete operation is the active one and its session still has it, and configs written are those acknowledged or about to be |
| `ConfigCoordinator.AtMostOneConfig` | go_client/config_coordinator.go:27-51 | Over all workers at most one config ever enters the channel |
| `ConfigCoordinator.SentIsFinal` | go_client/config_coordinator.go:82-106 | Once sent, always sent, and no operation is handed out any more |
| `ConfigCoordinator.FinisherIsActive` | go_client/config_coordinator.go:110-126 | The stale-owner guard is never taken, and `sent` is set exactly for a written config |
| `ConfigCoordinator.NoOpOutlivesItsSession` | go_client/session.go:127-129 | Sessions follow program order and return from anywhere; when one has returned, its operation is completed and not the active one, then and ever after, because of the deferred release |
| `ConfigCoordinator.ActiveMeansRunning` | go_client/session.go:127-129 | While an operation is active the session that owns it is inside RunSession |
| `ConfigCoordinator.DoNeverBlocks` | go_client/config_coordinator.go:32-61 | Although a second call of the once-guard waits for the first, no session ever waits there, and a session inside it can go on |
| `ConfigCoordinator.AcquiresExactlyIf` | go_client/config_coordinator.go:82-106 | An operation is handed out exactly if nothing was sent, none is active and no cooldown runs |
| `ConfigCoordinator.CoordinatorIsTold` | go_client/config_coordinator.go:110-126 | In every run the cooldown is that of the last failed operation, and `sent` means that some session acknowledged a written config |
| `ConfigCoordinator.StartsWithOpExactlyIf` | go_client/config_coordinator.go:82-106 | In every run a session starts with an operation exactly if no config was acknowledged, no operation is incomplete and the cooldown is over |
| `ConfigCoordinator.CallsExactly` | go_client/config_coordinator.go:27-62 | The first call of the once-guard enters its closure and a later one does nothing; a failed delivery and the deferred release cost three seconds |
| `ConfigCoordinator.FinishesExactly` | go_client/config_coordinator.go:110-126 | The closure returns to where its call came from, with the operation completed and none active |
| `ConfigCoordinator.LeavesAlone` | go_client/config_coordinator.go:27-126 | What a step leaves alone: coordinator, count of written configs, other sessions and operations each change by their own steps only |
| `ConfigProgress.ConfigCanBeDelivered` | go_client/config_coordinator.go:27-126 | In every run, until a config was delivered one still can be |
| `ConfigProgress.NobodyIsStuck` | go_client/session.go:127-129 | In every run each session has a continuation in which RunSession returns |
| `ConfigCoordinator.Operation.DeliverConfig` | go_client/config_coordinator.go:27-51 | Delivers exactly on the first completion with a config, a channel and a send that went through; the coordinator ends accordingly |
| `ConfigCoordinator.Operation.ReleaseWithCooldown` | go_client/config_coordinator.go:55-62 | Ends the operation once, without success; later calls change nothing |
| `ConfigCoordinator.Coordinator.TryAcquire` | go_client/config_coordinator.go:82-106 | Refines the acquire step and hands out the new active object |
| `ConfigCoordinator.Coordinator.FinishOp` | go_client/config_coordinator.go:110-126 | Refines the finish step by object identity |
| `Dispatcher.DispatchContract` | go_client/dispatcher.go:158-202 | A packet is dropped exactly when no worker has room; otherwise it goes to one with room, the current one first |
| `Dispatcher.CursorExactly` | go_client/dispatcher.go:165-201 | The chunk counts on or ends after eight; a packet sent elsewhere is the first of a chunk there; a dropped one moves the cursor on |
| `Dispatcher.RedirectStartsChunk` | go_client/dispatcher.go:179-194 | After a redirect the other worker, as long as it has room, gets the next seven packets too |
| `Dispatcher.FairRound` | go_client/dispatcher.go:165-178 | With n fixed workers that have room, 8n packets from a chunk start give each worker one run of 8 consecutive packets and restore the cursor |
| `Dispatcher.Dispatched` | go_client/dispatcher.go:158-202 | Every dispatch keeps index and count in range |
| `Dispatcher.FirstFreeIsFirst` | go_client/dispatcher.go:179-194 | The cyclic search finds the first queue with room, or every queue it looked at was full |
| `Dispatcher.Dispatcher.Dispatch` | go_client/dispatcher.go:158-202 | The packet is appended to the queue of exactly one slot or to none, all other queues are unchanged, the cursor follows the specification |
| `Dispatcher.Dispatcher.Register` | go_client/dispatcher.go:96-102 | Appends the worker and keeps the cursor in range |
| `Dispatcher.Dispatcher.Unregister` | go_client/dispatcher.go:104-120 | Removes exactly the first registration of the slot, keeps the order, brings the cursor back into range and starts a new chunk |
| `HealthWatchdog.HistoryExplains` | go_client/ios_bridge.go:535-612 | For every history the six fields of the detector are accounted for by samples of that history |
| `HealthWatchdog.RequestJustified` | go_client/ios_bridge.go:559-592 | A request implies a sample at least 45 s back, the one the silence clock ran from, since which downloads were constant, uploads grew by at least 2048 and every sampled tick came within 35 s of the event before it, with a transmit within 60 s |
| `HealthHistory.HistoryDecides` | go_client/ios_bridge.go:535-612 | For every history, told without the detector: a reconnect is requested exactly at an alarm, that is, at a regular tick after 45 s of silence with at least 2048 bytes sent, some within a minute |
| `HealthHistory.NothingIsMissed` | go_client/ios_bridge.go:585-592 | Whenever these conditions hold the request is made |
| `HealthWatchdog.RequestPossibleExactlyIf` | go_client/ios_bridge.go:554-593 | On a schedule of calls, counters that make the last one request a reconnect with its silence measured from call a exist if and only if every later call with counters is a tick within 35 s of the call before it and at least 45 s passed |
| `HealthWatchdog.SleepMistakenExactlyIf` | go_client/ios_bridge.go:554-569 | Such a request with a gap over 35 s since a is possible if and only if, besides, a call without counters in between follows such a gap |
| `HealthWatchdog.SpansAttemptsExactlyIf` | go_client/ios_bridge.go:757-760 | Such a request resting on counters of two transport attempts is possible if and only if, besides, the attempt changed since a |
| `HealthWatchdog.NewAttemptPaysForOld` | go_client/ios_bridge.go:757-760 | Concrete schedule: an attempt seen for the first time is restarted on the silence of the one before |
| `HealthWatchdog.SleepCanBeMistakenForSilence` | go_client/ios_bridge.go:554-569 | Concrete schedule: eight minutes of sleep absorbed by a tick without counters lead to a request |
| `HealthWatchdog.Watchdog.Evaluate` | go_client/ios_bridge.go:554-593 | The mutating form refines the tick step |
| `HealthWatchdog.Watchdog.Kicked` | go_client/ios_bridge.go:602-608 | The mutating form refines the wake step |
| `ZeroWorkers.RequestJustified` | go_client/stats_publish_ios.go:80-152 | However the sections of concurrent calls interleave, a request follows at least 5 consecutive zero samples over at least 30 s, all of one runtime, after that runtime had shown a live worker |
| `ZeroHistory.HistoryDecides` | go_client/stats_publish_ios.go:80-168 | For every history, told without the watchdog: a sample requests a reconnect exactly if it is the fifth zero sample or a later one of a runtime that lived, 30 s into the window, with no acceptance on record in the last 90 s |
| `ZeroWorkers.AcceptedRequestsApart` | go_client/stats_publish_ios.go:138-168 | Once an acceptance is recorded, and as long as no other runtime is sampled, the same runtime requests nothing for at least 90 s, however its sections interleave and however stale its sample times are |
| `ZeroWorkers.SequentialRequestsApart` | go_client/stats_publish_ios.go:80-173 | Where calls follow one another, accepted requests of one runtime are at least 90 s apart |
| `ZeroCooldown.CooldownEnforcedExactlyIf` | go_client/stats_publish_ios.go:90-168 | No further sections of the allowed runtimes lead the watched one to a request within 90 s of time t if and only if an acceptance at t or later is on record and no other runtime is allowed |
| `ZeroCooldown.EarlyRequestExactlyIf` | go_client/stats_publish_ios.go:90-155 | With the acceptance on record, a schedule of calls (runtime and reading) can make its runtime request again within 90 s if and only if a call of another runtime is followed by an unbroken series of its own in which some call within the 90 s comes four calls and 30 s after one that is not the first |
| `ZeroCooldown.ForeignSampleErasesRecord` | go_client/stats_publish_ios.go:91-99 | Concrete history: 33 s after its recorded acceptance a runtime requests again, a stalled call of another runtime having come in between |
| `ZeroCooldown.PendingRecordDefeatsCooldown` | go_client/stats_publish_ios.go:161-168 | Concrete history: with the record outstanding the watchdog requests again 50 s later |
| `ZeroWorkers.HistoryExplains` | go_client/stats_publish_ios.go:90-155 | For every history the window fields are accounted for by its samples |
| `ZeroWorkers.Watchdog.Look` | go_client/stats_publish_ios.go:90-155 | The first locked section refines the step for a sample |
| `ZeroWorkers.Watchdog.RecordAccepted` | go_client/stats_publish_ios.go:163-168 | The second locked section refines the step for a record |
| `ZeroWorkers.Watchdog.WatchConnections` | go_client/stats_publish_ios.go:80-173 | An uninterrupted call: it looks, asks the runtime exactly if the sample calls for it, and records exactly an acceptance |
| `ZeroWorkers.Runtime.RequestReconnect` | go_client/ios_bridge.go:162-187 | Accepted exactly while running and at least 1.5 s after the last accepted request; a refusal changes nothing |
| `Handshake.TimeoutExactly` | go_client/handshake_classification.go:82-119 | Exactly when a permit is handed back as a timeout, as a success and as canceled: a failure counts as canceled if the outer context had ended, at the failure or, for other errors, by the release |
| `Handshake.ReportExactly` | go_client/handshake_classification.go:82-108 | What the caller is told: the outer context's end first, then the timeout, then the teardown, then the error |
| `Handshake.FailureCountOnPath` | go_client/session.go:163-174 | Through classification, release and finish: the endpoint's failure count grows by one on exactly those paths, never when the outer context had stopped, is cleared by success, and no other endpoint is touched |
| `SessionRuns.FailuresCountTimedOutSessions` | go_client/session.go:163-174 | In every run of sessions over the scheduler, an endpoint's failure count is the number of sessions on it that failed under a live outer context by expiry or timeout, torn down or not, since the last success on it or the last Reset |
| `SessionRuns.SettlingCounts` | go_client/session.go:527-546 | Settling a session's permit adds one exactly if it timed out, clears the count after a success, changes nothing when it was stopped from outside or failed otherwise, and touches no other endpoint |
| `Handshake.RunSession` | go_client/session.go:502-546 | On every path the permit is given back exactly once, with the outcome of that path |
| `Handshake.TeardownCause.Record` | go_client/handshake_classification.go:53-62 | Keeps the first error |

## Left out

- VK and OK HTTP token chains, captcha solving and injected account-mode credentials: a fetch succeeds or fails arbitrarily.
- pion TURN and DTLS, WireGuard, netstack, sockets and the cgo bridge: only their outcomes enter the model.
- ChaCha20-Poly1305 and HKDF: the AEAD is a parameter; Open inverts Seal, Seal adds 16 bytes, and Open removes 16.
- Trimming, URL splitting and case folding: parameters of the candidate builder; two endpoints are equal when their folded forms are, which equates the source's `ToLower` keys with `EqualFold`.
- Link normalisation and the store of caches: one cache with one normalised link; `getLinkCache` is not part of this model.
- Wrap-around of the 64-bit generation and revision counters: they are unbounded here; the packet counter does wrap.
- Timer precision: timers fire no earlier than asked, and clock readings of the monotonic clock do not go back. The wall clock in RefreshCreds may jump.
- A blocked call as one method: waiting is a phase of the state machines, and the class methods are the locked sections between waits.
- Order of a group's own generations: installs from the cache and from a network refresh are not ordered with each other, so nothing is claimed.
- Number of FloodGate probe holders: reports by requests admitted earlier clear the mark, so nothing is claimed.
- TurnTheorems.NoGrantInsidePause: speaks of clock readings until a success on the endpoint or a Reset, which lift the pause by design; the two results on stale readings above cover what follows.
- Dispatcher.Dispatcher.Dispatch: queues are read as of the moment of the call; consumers draining them between two attempts of one dispatch appear only as different fullness values.
- Handshake.RunSession: reduced to the life of the permit; data pumping, keep-alives and in-flight counters are not modelled. Panics that unwind a session are not modelled either.
- Nil receivers and nil arguments (`ConfigOperation`, `ObfsState`, `teardownCause`): the types exclude them.
- ObfsPacket.Unwrap: the destination does not alias the packet, and after a failed authentication nothing is written, whereas the library may clear the destination.
- Buffer capacity beyond length in `ObfsState`: the buffer's length stands for its capacity.
- Error texts, string tests on errors, hints, logging, statistics formatting, memory diagnostics: no properties to prove.
- SwiftUI views, widgets, profile storage, subscription import, `doh.go` and `socks_wg.go`: outside the coordination core or only easy members.
