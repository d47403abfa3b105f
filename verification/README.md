# A Dafny model of fastapi-watch

fastapi-watch checks the dependencies of a FastAPI application, remembers what
it found, and tells people when a status changes.  The project models its
concurrent protocols and its incremental data structures in Dafny and proves
what they keep, over every run and for every input.

The event loop switches tasks only at an `await`, so a protocol of the registry
is a transition system whose steps are the synchronous stretches between two of
them; the thread pool is cut at every atomic operation on its queue, semaphore,
lock and futures.  Beside each transition system stands a class with the
source's own fields whose methods are proved to take exactly those steps, and
lemmas over all event sequences say what the steps add up to.  Times and rates
are reals; names are opaque texts; what the network, the clock or a callback
does is an event or a parameter.

| file | of the program | what is proved |
|---|---|---|
| `AlertPipeline`, `AlertInvariants`, `AlertTheorems`, `AlertRegistry` | alerts in `registry.py` | alerts of a probe form a chain from HEALTHY, spaced by the interval; a settled status reaches the alerters |
| `AlertMaintenance` | the same | which checks and due passes alerters hear of, read off the events alone: those outside maintenance, and no others |
| `AlertBacklog`, `AlertWorker` | the same | every reason why alerters may be behind; exactly when a worker is there |
| `AlertClaims`, `AlertDedupe` | cross-replica claims | announcements differ or are a window apart; each change is sent once exactly if the replicas are in step |
| `CheckRuns`, `CheckOutcomes` | running checks in `registry.py` | one live check per probe, whatever times out or is cancelled; exactly which runs record a result, and which checks are tracked |
| `CircuitBreaker` | the breaker in `registry.py` | its state replays the judged runs, and counts calls exactly if none was answered without one; exactly when a probe is called; a failing one is called a bounded number of times |
| `Writers` | background storage writes | no wake-up is lost exactly unless the key's own writer was cancelled; the newest result is kept; exactly when a flush ends |
| `ThreadPool`, `PoolOutcomes` | `_executor.py` | the exact account of an over-counting semaphore; a shutdown completes; exactly which items run, are cancelled or refused |
| `WatchedGenerator` | `watch` on generators | exactly when the watched generator behaves as the original; a call is recorded once, with its running time |
| `Windows`, `CallStats` | statistics in `probes/base.py` | counters kept by eviction equal a recount; percentiles are nearest-rank values within the extremes |
| `Requests`, `RouteTable` | `middleware.py` | a request is recorded once, with the right status; each route has its own bucket while there is room, and they add up to the aggregate |
| `FitEntry` | `_fit` in `storage.py` | the largest values go first, none needlessly; as much of the error stays as fits; exactly when the budget is met |
| `HistoryLog`, `HistoryStores`, `HistoryAgreement` | both storage backends | the deques and the Redis sorted sets answer as one log, after any writes |
| `Timeline` | `static/dashboard.js` | the drawn intervals show at each instant what the points say, and no other drawing does |
| `Deadline` | `_Deadline`, `_connect_within` in `alerts.py` | exactly which sockets the deadline cuts; attempts share one budget |

## Where the code differs from what is said about it

- A check without data does not make the alerters catch up after maintenance
  (`AlertTheorems.NoDataLeavesBook`): only the next check that has a status does.
- A marker that outlives a stop of the alert worker keeps the probe's next
  change from starting a new worker (`AlertWorker.RestartLeavesMarkerUnattended`).
  `AlertWorker.WorkerStartsIff` and `AlertWorker.AttendedAfterRestart` say
  exactly which checks bring a worker back.
- "One replica sends each change" fails when a replica lags: one that is behind
  by two changes announces both again (`AlertDedupe.LaggingReplicaRepeats`).  It
  holds exactly if no attempt of a change follows an attempt of a later one
  (`AlertDedupe.EachChangeSentOnceIffInStep`).
- A run that finds the earlier check still running is answered unhealthy without
  a call, and the breaker counts it: a breaker of two failures can open after one
  call (`CircuitBreaker.OneCallTripsTwice`).  The count is that of real calls
  exactly if no such run lies since the last pass or reset
  (`CircuitBreaker.CountsCallsIff`).  A run that is cancelled has called the probe
  and is not counted, however often it happens (`CircuitBreaker.CancelledUnbounded`).
- A watched generator can differ from the original after a `close` that the
  original ignored (`WatchedGenerator.DiffersAfterIgnoredClose`), in the value
  that a `close` hands over from Python 3.13 on, and where GeneratorExit is thrown
  in and the original answers with anything but an exception.  For every body and
  all operations: it does not differ if and only if no such answer comes up to the
  first ignored close and the original acts as ended after it
  (`WatchedGenerator.WatchedEqualsOriginal`).
- A storage writer cancelled before it starts leaves its item unwritten and its
  entry in the table of writers (`Writers.CancelledEarlyStrands`).  What is
  unwritten has its writer exactly if none of its key was cancelled since the
  last submission (`Writers.NoLostWakeUp`).  An entry outlives its writer exactly if
  that was cancelled before it started and nothing was submitted since
  (`Writers.DeadEntryIff`), and a flush comes to its end exactly if there is none
  (`Writers.FlushEnds`).  Only shutdown cancels writers.
- `_fit` can exceed its budget not only for a long probe name but whenever the
  name together with the fields that are never cut, the marker and the shortest
  error text exceeds it (`FitEntry.Fit` has the exact condition), and shortening
  makes an error longer exactly if its JSON text is shorter than three bytes
  (`FitEntry.ShortErrorGrows`).
- The idle semaphore of the pool can count more permits than there are idle
  workers (`ThreadPool.SemaphoreOverCounts`): it has one too many for each submit
  that found no permit with the pool at its cap, and is right exactly if there was
  none (`ThreadPool.EveryQueuedItemHasAWorker`).
- Twelve hexadecimal digits keep the order of Redis members for the first
  16^12 entries of an instance and no longer (`HistoryLog.TagsKeepOrderIff`); the
  next one sorts before its predecessor (`HistoryLog.TagsWrap`).

## Model

| member | source | states |
|---|---|---|
| `AlertTheorems.AlertsFormSpacedChain` | src/fastapi_watch/registry.py:2440-2521 | over every run of checks, cancelled checks, maintenance, due passes, full queues, shutdowns and restarts: the alerts of a registered probe start at HEALTHY, each begins where the last one ended and changes the status, two in a row are at least the interval apart, and the last one ends at the status the registry holds as announced |
| `AlertTheorems.TakenInOrder` | src/fastapi_watch/registry.py:2553-2595 | alerts taken by the worker, in a shutdown's drain too, followed by those still queued are exactly those ever queued, in order; the queue stays within its bound |
| `AlertTheorems.CheckSettles` | src/fastapi_watch/registry.py:2409-2489 | a check that maintenance did not silence leaves its status announced, or a marker at last-sent plus the interval and in the future, or a refusal by a queue that is full |
| `AlertTheorems.DuePassSettles` | src/fastapi_watch/registry.py:2505-2521 | a due pass announces the current status of each due, unsilenced probe unless the queue is full, and leaves every other probe as it was |
| `AlertTheorems.NoDataLeavesBook` | src/fastapi_watch/registry.py:2411-2413 | a check without data changes nothing of what alerters were sent or are to be sent |
| `AlertTheorems.RefusedIsRetried` | src/fastapi_watch/registry.py:2463-2489 | the next check after a refusal, outside maintenance and with room in the queue, leaves its status announced, no marker and no refusal |
| `AlertTheorems.SettledStatusReachesAlerters` | src/fastapi_watch/registry.py:2409-2521 | from any reachable state, through any run that finds no other status of the probe and starts no maintenance, however often the queue was full in it: the next due pass at or after the probe's marker, or after a refusal its next check, leaves the announced status equal to the current one and nothing outstanding, or meets a full queue again; the marker is never put off on the way, and checks that find the settled status again, in flight or later, are among the runs |
| `AlertMaintenance.EventsTell` | src/fastapi_watch/registry.py:2409-2422 | over every run, in terms of its events alone: what the clock reads and when maintenance is on, the status each probe has, and for a check in flight the status it found, the change that is from the one before it, and that it is silenced if and only if it began in maintenance |
| `AlertMaintenance.OnlyHeardChecksSend` | src/fastapi_watch/registry.py:2409-2521 | after any run an event adds an alert of a probe only if there are alerters and it is the end of a check of the probe that began outside maintenance, or a due pass outside maintenance |
| `AlertMaintenance.HeardCheckSettles` | src/fastapi_watch/registry.py:2409-2489 | a check that began outside maintenance, after a window has run out too, leaves the status it found announced with nothing outstanding, a marker in the future, or a refusal by a full queue with the marker as it was |
| `AlertMaintenance.DuePassHeard` | src/fastapi_watch/registry.py:2505-2521 | a due pass drops a due marker; outside maintenance the status last found is then announced or the queue is full, and in maintenance nothing is sent |
| `AlertBacklog.SilenceHasCause` | src/fastapi_watch/registry.py:2409-2521 | only a check or a due pass in maintenance silences a probe, and only the end of a check outside it undoes that |
| `AlertBacklog.CutHasCause` | src/fastapi_watch/registry.py:2422-2438 | only a run cancelled between its stretches leaves a probe cut off, and only the end of a check undoes that |
| `AlertBacklog.BehindHasReason` | src/fastapi_watch/registry.py:2393-2521 | after any run, maintenance and cancelled checks included: a probe whose announced status differs from its current one has a marker, was refused by a full queue, was last silenced by maintenance, or had its last check cut off |
| `AlertBacklog.BehindOnlyWhenMarkedOrRefused` | src/fastapi_watch/registry.py:2409-2489 | so in a run without maintenance and without a cancelled check of the probe, it has a marker or was refused |
| `AlertWorker.DueMarkerNeverSleptPast` | src/fastapi_watch/registry.py:2570-2585 | whenever a marker is due a live worker can move: it never waits past the marker with an empty queue |
| `AlertWorker.SleepsUntilEarliest` | src/fastapi_watch/registry.py:2570-2585 | after its due pass the worker waits until the earliest marker left, or for good exactly when there is none |
| `AlertWorker.MarkersAreAttended` | src/fastapi_watch/registry.py:2491-2551 | until the first shutdown, a marker or a queued item always has a live worker |
| `AlertWorker.WorkerStartsIff` | src/fastapi_watch/registry.py:2458-2489 | with no worker and no shutdown, an event starts one if and only if it ends an unsilenced check whose status alerters do not know and which is not held back behind a marker that is already there |
| `AlertWorker.AbsentUntilStarted` | src/fastapi_watch/registry.py:2458-2551 | through any run without a shutdown: no worker is there exactly as long as no such check has ended, and until then only what was left over waits |
| `AlertWorker.AttendedAfterRestart` | src/fastapi_watch/registry.py:2458-2551 | the same after any run that ended in a shutdown, and a restart |
| `AlertWorker.ShutdownStartsIff` | src/fastapi_watch/registry.py:2133-2137 | during a shutdown an event brings a worker if and only if it is the drain and something is queued |
| `AlertWorker.RestartLeavesMarkerUnattended` | src/fastapi_watch/registry.py:2463-2470 | a concrete run in which a marker from before a restart leaves the new lifespan without a worker |
| `AlertInvariants.ApplyKeeps` | src/fastapi_watch/registry.py:2393-2595 | every single event keeps the invariant: chain, spacing, exact markers, accounted probes, queue order, worker wake-up |
| `AlertInvariants.RunKeepsInv` | src/fastapi_watch/registry.py:2393-2595 | so every run from the initial state does |
| `AlertRegistry.Registry.InMaintenance` | src/fastapi_watch/registry.py:1362-1373 | the answer, and that maintenance whose end has passed is cleared |
| `AlertRegistry.Registry.AlertQueueOn` | src/fastapi_watch/registry.py:2553-2568 | moving the queue to another loop keeps every item in its place |
| `AlertRegistry.Registry.EnsureAlertWorker` | src/fastapi_watch/registry.py:2541-2551 | starts a worker unless one lives or the registry shuts down |
| `AlertRegistry.Registry.WakeAlertWorker` | src/fastapi_watch/registry.py:2491-2497 | queues a wake-up when there is room |
| `AlertRegistry.Registry.SendToAlerters` | src/fastapi_watch/registry.py:2440-2489 | takes the model's send step: nothing, a marker, a refusal, or an alert from the last-sent status |
| `AlertRegistry.Registry.FireStateChange` | src/fastapi_watch/registry.py:2409-2422 | first stretch of a check: the new status, the transition from the one before and whether maintenance silences it, which `AlertMaintenance.EventsTell` gives from the events |
| `AlertRegistry.Registry.AnnounceStateChange` | src/fastapi_watch/registry.py:2437-2438 | second stretch, with what the first one decided |
| `AlertRegistry.Registry.SendDueAlerts` | src/fastapi_watch/registry.py:2505-2521 | the loop over the markers is the model's due pass in the order visited |
| `AlertRegistry.Registry.NextPending` | src/fastapi_watch/registry.py:2499-2503 | the smallest due time of all markers, or none when there is none |
| `AlertRegistry.Registry.AlertLoopTop` | src/fastapi_watch/registry.py:2570-2583 | one turn of the worker up to its wait |
| `AlertRegistry.Registry.TakeAlert` | src/fastapi_watch/registry.py:2579-2583 | the worker takes the head of the queue |
| `AlertRegistry.Registry.BeginShutdown` | src/fastapi_watch/registry.py:2100-2101 | sets the flag, and nothing else |
| `AlertRegistry.Registry.StartDrain` | src/fastapi_watch/registry.py:2133-2137 | a worker for the queue exactly when something is queued and none is there |
| `AlertRegistry.Registry.StopWorker` | src/fastapi_watch/registry.py:2146-2152 | the worker is gone, what is queued stays |
| `AlertRegistry.Registry.ForgetUnregistered` | src/fastapi_watch/registry.py:1965-1972 | exactly the probes that are not registered are forgotten |
| `AlertClaims.InMemoryClaims.ClaimAlert` | src/fastapi_watch/storage.py:248-261 | refused only while the same status is held; an accepted claim is held for the window; other keys are unaffected, purging included |
| `AlertClaims.RedisClaims.ClaimAlert` | src/fastapi_watch/redis_storage.py:35-39 | the same contract for the script, with the window rounded up to a millisecond |
| `AlertClaims.RoundedUp` | src/fastapi_watch/redis_storage.py:405-407 | the rounded window is less than a millisecond longer, and is zero exactly when the requested one is |
| `AlertClaims.StoreHoldsLastAccepted` | src/fastapi_watch/registry.py:2523-2539 | after any sequence of claims by any replicas the store holds for a probe its last accepted status for one window |
| `AlertClaims.AcceptedIffNews` | src/fastapi_watch/registry.py:2523-2539 | a claim is accepted exactly when the last accepted one differs or is a window old |
| `AlertClaims.AnnouncementsDiffer` | src/fastapi_watch/registry.py:2523-2539 | two consecutive accepted announcements differ in status or are a window apart |
| `AlertClaims.RefusedWasAnnounced` | src/fastapi_watch/registry.py:2523-2539 | a refused alert has an accepted one of the same status within the window and no other status accepted since |
| `AlertDedupe.AcceptedIffChanged` | src/fastapi_watch/registry.py:2523-2539 | within one window a claim is accepted exactly where the status attempted for its probe changes, whatever other probes do |
| `AlertDedupe.SentUpToLatest` | src/fastapi_watch/registry.py:2523-2539 | while replicas are in step, each change up to the latest one attempted was sent once and no other |
| `AlertDedupe.EachChangeSentOnceIffInStep` | src/fastapi_watch/registry.py:2523-2539 | any number of replicas, each working through the same changes of a probe within a window, send each change once if and only if no attempt of a change follows an attempt of a later one |
| `AlertDedupe.LaggingReplicaRepeats` | src/fastapi_watch/registry.py:2526-2531 | a concrete run in which a second replica announces both of another's changes again |
| `CheckRuns.RunKeepsInv` | src/fastapi_watch/registry.py:1450-1776 | over every run: an unfinished run is the one in flight, a live check is held by its run or tracked as abandoned |
| `CheckRuns.AtMostOneLiveCheck` | src/fastapi_watch/registry.py:1649-1776 | at most one check of a probe is live across callers, timeouts and cancellations |
| `CheckRuns.AtMostOneRun` | src/fastapi_watch/registry.py:1450-1463 | at most one run of a probe is unfinished, and every new caller joins it |
| `CheckRuns.FinishedRunAccounted` | src/fastapi_watch/registry.py:1671-1681 | a check its run no longer waits for has stopped or is tracked, with a callback to untrack it |
| `CheckRuns.AbandonedCheckBlocks` | src/fastapi_watch/registry.py:1657-1665 | while an abandoned check lives it stays tracked and no new check of its probe starts, through any events |
| `CheckRuns.StoppedCheckUnblocks` | src/fastapi_watch/registry.py:1767-1770 | once it stopped, its callback lets the next run check again |
| `CheckOutcomes.RunOutcome` | src/fastapi_watch/registry.py:1649-1776 | over every run of events: a finished run came to a result if and only if no cancellation took effect before it had one, and recorded it once if and only if none cut it while recording either; so a run that nobody interrupted recorded exactly once, and none recorded twice |
| `CheckOutcomes.RunMovesOn` | src/fastapi_watch/registry.py:1649-1776 | no event sets a run back, and each of its own brings it at least one of four stages on |
| `CheckOutcomes.UnfinishedCanGoOn` | src/fastapi_watch/registry.py:1649-1776 | an unfinished run can always go on, unless it waits without a time limit for a check that still lives |
| `CheckOutcomes.InFlightUntilForgotten` | src/fastapi_watch/registry.py:1450-1463 | a run is the one in flight for its probe from when it was asked for until its callback forgets it, and not after |
| `CheckOutcomes.AskStartsIff` | src/fastapi_watch/registry.py:1450-1463 | a request starts a run exactly when none is in flight for the probe, and nothing else starts one |
| `CheckOutcomes.LiveUntilStopped` | src/fastapi_watch/registry.py:1764-1770 | a check lives until it stops by itself, whatever its run does meanwhile |
| `CheckOutcomes.TrackedIff` | src/fastapi_watch/registry.py:1764-1770 | a check is tracked as abandoned if and only if its run gave it up while it lived and its callback has not run since |
| `CheckOutcomes.CheckStartsIff` | src/fastapi_watch/registry.py:1657-1671 | an event starts a check if and only if it begins a run past the breaker and no check of that probe is given up; it is then the check of that run |
| `CheckRuns.Execution.SharedRun` | src/fastapi_watch/registry.py:1450-1463 | returns the run in flight or registers the new one |
| `CheckRuns.Execution.Forget` | src/fastapi_watch/registry.py:1458-1462 | removes a finished run only if it is still the registered one |
| `CheckRuns.Execution.GuardedCheck` | src/fastapi_watch/registry.py:1657-1671 | starts a check exactly when none of the probe is abandoned |
| `CheckRuns.Execution.EndCancel` | src/fastapi_watch/registry.py:1764-1770 | a check that did not stop in its grace is tracked; its run has a result to record unless it was cancelled, which `CheckOutcomes.RunOutcome` gives from the events |
| `CheckRuns.Execution.CheckDone` | src/fastapi_watch/registry.py:1770-1770 | a check that stopped is untracked |
| `CircuitBreaker.StateIsReplay` | src/fastapi_watch/registry.py:1811-1834 | failures, suspension and trips are at all times a replay of the judged runs and resets; cancelled runs change nothing, and every run starts after the last one and not while suspended |
| `CircuitBreaker.CalledIff` | src/fastapi_watch/registry.py:1792-1834 | after any run of events with no check in flight: a request starts a run if and only if no run of the history failed as at least the threshold-th in a row, was followed by neither a pass nor a reset, and ended less than a cooldown ago |
| `CircuitBreaker.EveryEndIsNoted` | src/fastapi_watch/registry.py:1811-1834 | the history gains exactly the runs that end, each as it ended and with the time it started, and the resets |
| `CircuitBreaker.CountsCallsIff` | src/fastapi_watch/registry.py:1657-1665 | the failure count is that of the runs that called the probe plus those answered without a call; equal to the former if and only if there is none of the latter since the last pass or reset |
| `CircuitBreaker.OneCallTripsTwice` | src/fastapi_watch/registry.py:1657-1665 | a concrete run in which a breaker of two failures opens after one call |
| `CircuitBreaker.FailingSpread` | src/fastapi_watch/registry.py:1792-1834 | without a pass or reset, judged runs beyond the threshold are a cooldown apart, cancelled runs between them or not |
| `CircuitBreaker.FailingCallsBounded` | src/fastapi_watch/registry.py:1792-1834 | without a pass or reset, any window from one judged run to another holds at most threshold + floor(window / cooldown) judged runs, and at most so many calls besides those cancelled |
| `CircuitBreaker.CancelledUnbounded` | src/fastapi_watch/registry.py:1811-1815 | cancelled calls are not bounded: any number can be made at one moment with the breaker untouched |
| `CircuitBreaker.Breaker.IsOpen` | src/fastapi_watch/registry.py:1793-1794 | open exactly if the probe has a suspension that has not ended; so the first request at or after its end runs a check |
| `CircuitBreaker.Breaker.Update` | src/fastapi_watch/registry.py:1814-1834 | the probe's circuit takes the judged step and no other probe's changes |
| `CircuitBreaker.Breaker.ResetCircuit` | src/fastapi_watch/registry.py:1006-1013 | clears failures and suspension, keeps trips, touches no other probe |
| `Writers.RunKeepsInv` | src/fastapi_watch/registry.py:1504-1564 | over every run, cancellations included: what is unwritten is the newest stretch of what was submitted, a live writer is the registered one, and each key has its writer unless stranded |
| `Writers.StrandedIff` | src/fastapi_watch/registry.py:1544-1559 | a key is stranded exactly if its writer was cancelled and nothing submitted under it since |
| `Writers.NoLostWakeUp` | src/fastapi_watch/registry.py:1539-1559 | over every run: an unwritten item has a live registered writer if and only if none of its key was cancelled since its last submission; a key's live writer is always the registered one |
| `Writers.DeadEntryIff` | src/fastapi_watch/registry.py:1544-1564 | over every run: the task registered for a key is dead if and only if a writer of the key was cancelled before it started and nothing was submitted under it since; while that is so some writer stays registered, which is what a flush waits on |
| `Writers.EntryIsLiveOrDead` | src/fastapi_watch/registry.py:1561-1564 | every other entry is that of a writer at work |
| `Writers.FlushEnds` | src/fastapi_watch/registry.py:1544-1564 | from any moment on, without new submissions, the writers finish within a number of moves that the state determines; then no writer is registered, which a flush waits for, if and only if none was cancelled before it started with nothing submitted under its key since |
| `Writers.AttemptedInOrder` | src/fastapi_watch/registry.py:1544-1559 | attempted writes are submitted items in the order submitted, and attempted, dropped and unwritten add up to submitted |
| `Writers.NewestIsKept` | src/fastapi_watch/registry.py:1507-1529 | the newest item is unwritten or was the last attempted |
| `Writers.DroppedOnlyForNewer` | src/fastapi_watch/registry.py:1507-1537 | every item submitted was attempted, is unwritten, or was followed by as many newer ones as its key keeps: one for results, the bound of the deque for alerts |
| `Writers.ChannelMoves` | src/fastapi_watch/registry.py:1504-1559 | a key gains what is submitted under it, its writer attempts one item at a time, and nothing else changes it |
| `Writers.FlushedMeansAttempted` | src/fastapi_watch/registry.py:1561-1564 | with no writer registered no task lives, and a key whose writer was not cancelled since had its last submission attempted last |
| `Writers.CancelledEarlyStrands` | src/fastapi_watch/registry.py:1544-1552 | a concrete run: a writer cancelled before it starts strands its item and its entry |
| `Writers.Background.StartWriter` | src/fastapi_watch/registry.py:1539-1542 | a task is created exactly when none lives for the key |
| `Writers.Background.StoreResult` | src/fastapi_watch/registry.py:1528-1529 | the dictionary keeps the newest result and the writer is started |
| `Writers.Background.StoreAlert` | src/fastapi_watch/registry.py:1536-1537 | the bounded deque keeps the newest records and the writer is started |
| `Writers.Background.DrainResults` | src/fastapi_watch/registry.py:1544-1552 | one resumption of the writer: the next result, or its own removal |
| `Writers.Background.DrainAlerts` | src/fastapi_watch/registry.py:1554-1559 | the same for the alert log |
| `ThreadPool.RunKeepsInv` | src/fastapi_watch/_executor.py:43-97 | over every interleaving of submits, workers, cancellations and shutdowns the counting and the order invariants hold |
| `ThreadPool.EveryQueuedItemHasAWorker` | src/fastapi_watch/_executor.py:43-69 | never more threads than the cap; until a shutdown, queued items, items in workers' hands and permits add up to the threads, a submit half done and the acquires that missed, of which there are none below the cap; so with no submit half done the permits are the waiting workers left over by the queue if and only if no acquire ever missed |
| `ThreadPool.SemaphoreOverCounts` | src/fastapi_watch/_executor.py:51-52 | a concrete run after which a pool of one holds two permits |
| `ThreadPool.NoItemBehindMarker` | src/fastapi_watch/_executor.py:61-97 | no work item is ever queued behind a shutdown marker |
| `ThreadPool.MarkerTakenMeansNoItems` | src/fastapi_watch/_executor.py:61-66 | when a worker has taken a marker no item is left |
| `ThreadPool.RunAtMostOnce` | src/fastapi_watch/_executor.py:71-80 | no item runs twice; a cancelled one never ran, a finished one did |
| `ThreadPool.ShutdownReachesEveryone` | src/fastapi_watch/_executor.py:82-97 | once a shutdown was called and nothing can move, every thread has exited and every future is finished or cancelled |
| `ThreadPool.QuietMeansDone` | src/fastapi_watch/_executor.py:43-80 | without a shutdown, when nothing can move every future is done |
| `ThreadPool.ComesToRest` | src/fastapi_watch/_executor.py:43-97 | from any state, in whatever order workers, closers, cancellations and a submit half done go on, at most a number of events that the state determines can happen before the next new call |
| `ThreadPool.ShutdownCompletes` | src/fastapi_watch/_executor.py:82-97 | once a shutdown was called, the pool's own events bring it within that number to where every thread has exited and every future is finished or cancelled |
| `ThreadPool.ShutDownCancels` | src/fastapi_watch/_executor.py:82-95 | a shutdown call cancels exactly the queued futures that are still pending, when asked to, and ends the queue with a marker |
| `ThreadPool.OneFlightPerOwner` | src/fastapi_watch/_executor.py:157-170 | an owner never has two unfinished futures in the pool |
| `PoolOutcomes.RunUnlessCancelled` | src/fastapi_watch/_executor.py:43-97 | when the pool is at rest, after a shutdown or without one, an item was run to its end if and only if it was not cancelled |
| `PoolOutcomes.CancelledIff` | src/fastapi_watch/_executor.py:43-97 | a future is cancelled if and only if its caller cancelled it while it was pending, or a cancelling shutdown took its item off the queue |
| `PoolOutcomes.OnlyCallersCancel` | src/fastapi_watch/_executor.py:82-97 | without a shutdown that is asked to cancel, only the caller cancels a future |
| `PoolOutcomes.RefusedIff` | src/fastapi_watch/_executor.py:157-170 | an owner is refused if and only if one of the calls that were put for it is unfinished |
| `PoolOutcomes.OwnersAre` | src/fastapi_watch/_executor.py:157-170 | a future belongs to the owner it was put for, and an owner's latest call is one of its own |
| `ThreadPool.DaemonThreadPool.Submit` | src/fastapi_watch/_executor.py:43-59 | refused exactly after shutdown; otherwise the three atomic steps |
| `ThreadPool.DaemonThreadPool.RunFlight` | src/fastapi_watch/_executor.py:165-170 | refused exactly while the owner's call is unfinished |
| `ThreadPool.DaemonThreadPool.RunItem` | src/fastapi_watch/_executor.py:71-80 | a future cancelled meanwhile is not run; the permit is released either way |
| `ThreadPool.DaemonThreadPool.WorkerTurn` | src/fastapi_watch/_executor.py:61-69 | takes the head: runs an item, or passes the marker on and leaves |
| `ThreadPool.DaemonThreadPool.Shutdown` | src/fastapi_watch/_executor.py:82-95 | takes the steps of its events: the flag, each turn of the loop over the queue when asked to cancel, and the marker; the queue stays in order, so it can be called again |
| `WatchedGenerator.StepAgrees` | src/fastapi_watch/probes/base.py:607-638 | per operation: the caller sees the same if and only if no answer is withheld, the same time passes, the log gains what the original's outcome calls for, and the two stay related if and only if no close was ignored |
| `WatchedGenerator.OutsAgree` | src/fastapi_watch/probes/base.py:607-638 | for every body and all operations: the outcomes are the same if and only if, up to the first close the original ignores, no answer of its is withheld, and after it the original acts as ended |
| `WatchedGenerator.LogsAgree` | src/fastapi_watch/probes/base.py:534-638 | for every body and all operations, also where the outcomes differ: the log is the one the original's run calls for |
| `WatchedGenerator.WatchedEqualsOriginal` | src/fastapi_watch/probes/base.py:534-638 | both, from a fresh generator |
| `WatchedGenerator.RecordedOnce` | src/fastapi_watch/probes/base.py:534-638 | for every body and all operations, from a fresh generator or a suspended one: a call started and ended is recorded exactly once, as an error exactly if the operation that ended it raised an exception other than the one it threw in, with the time the body ran until then; a fatal end is not recorded, nor is a call that has not started or not ended |
| `WatchedGenerator.EndedIff` | src/fastapi_watch/probes/base.py:607-637 | a started call has ended exactly if the watched generator is over |
| `WatchedGenerator.DiffersAfterIgnoredClose` | src/fastapi_watch/probes/base.py:625-637 | a concrete body for which the two differ after an ignored close |
| `WatchedGenerator.GenWrapper.Suspend` | src/fastapi_watch/probes/base.py:624-626 | time suspended at a yield leaves the measured time alone |
| `WatchedGenerator.GenWrapper.Advance` | src/fastapi_watch/probes/base.py:613-637 | one turn of the wrapper's loop, measured on its clock, is the model's watched body |
| `Windows.PushIsLast` | src/fastapi_watch/probes/base.py:333-345 | a bounded deque holds the last entries of all that was appended |
| `Windows.CountPush` | src/fastapi_watch/probes/base.py:411-414 | a count kept by eviction is the count over the window |
| `Windows.RetallyPush` | src/fastapi_watch/probes/base.py:403-410 | counters per key kept by eviction are the tally of the window, without zero entries |
| `Windows.Recount` | src/fastapi_watch/probes/base.py:426-432 | turn the tally of the window before the append into that of the window after it |
| `Windows.SortedCounts` | src/fastapi_watch/probes/base.py:134-140 | sorting keeps how often every property holds |
| `Windows.PercentileIsNearestRank` | src/fastapi_watch/probes/base.py:134-140 | a percentile is an entry with at least ceil(n p) entries no larger and fewer smaller |
| `Windows.PercentilesOrdered` | src/fastapi_watch/probes/base.py:134-140 | percentiles of one window are ordered as their p |
| `CallStats.RecordIsRecount` | src/fastapi_watch/probes/base.py:397-445 | for every history: totals, trailing errors, average, extremes and all windows with their counters equal a recount that includes the new call |
| `CallStats.NoticeIsRecent` | src/fastapi_watch/probes/base.py:400-435 | the reported last status, error text, error time and success time are those of the latest calls that had one |
| `CallStats.AddRttIsRecount` | src/fastapi_watch/probes/base.py:440-445 | slow calls counted before the append equal those of the window after it |
| `CallStats.AddStatusIsRecount` | src/fastapi_watch/probes/base.py:400-410 | status families equal the tally of the last codes |
| `CallStats.Family` | src/fastapi_watch/probes/base.py:54-57 | the family of a code is the hundred it lies in |
| `CallStats.HttpTextSays` | src/fastapi_watch/probes/base.py:423-424 | the error noted for a bad status reads back as that status |
| `CallStats.AddTypeIsRecount` | src/fastapi_watch/probes/base.py:425-432 | exception types equal the tally of the last ones |
| `CallStats.AverageWithinExtremes` | src/fastapi_watch/probes/base.py:49-51 | the moving average lies between the all-time minimum and maximum |
| `CallStats.PercentilesWithinExtremes` | src/fastapi_watch/probes/base.py:134-140 | minimum <= percentile p <= percentile q <= maximum for all p <= q |
| `CallStats.PassiveProbe.Record` | src/fastapi_watch/probes/base.py:384-445 | fields that recount a history recount it with the new call, and the last error and success are noted |
| `CallStats.PassiveProbe.SlideWindows` | src/fastapi_watch/probes/base.py:399-445 | every window field takes the model's step |
| `Requests.UncountedIffCancelled` | src/fastapi_watch/middleware.py:309-363 | a request goes unrecorded exactly when it is cancelled before its response is complete |
| `Requests.CompleteIsSettled` | src/fastapi_watch/middleware.py:328-337 | after the final body chunk, neither later messages nor the end of the application change what is recorded |
| `Requests.RecordedStatus` | src/fastapi_watch/middleware.py:309-363 | which status each kind of end records: that of the latest response start before the final chunk, or 500 without one; 500 when the application raises, even after a start; and when the client hung up, what had started, or 499 |
| `Requests.Request.SendWrapper` | src/fastapi_watch/middleware.py:322-345 | after any messages the variables and the recording are those the messages call for |
| `Requests.Request.Finish` | src/fastapi_watch/middleware.py:347-363 | what is recorded once the application has ended |
| `Requests.Serve` | src/fastapi_watch/middleware.py:309-363 | for every sequence of messages, send outcomes and ends: at most one recording, at the right message and with the right status |
| `RouteTable.SlideIsRecount` | src/fastapi_watch/middleware.py:68-82 | a bucket's windows and window errors equal a recount |
| `RouteTable.ToldIsRecount` | src/fastapi_watch/middleware.py:64-82 | every figure of a bucket is the recount of all its requests |
| `RouteTable.Conserved` | src/fastapi_watch/middleware.py:365-375 | distinct buckets that cover a log hold together what the log holds, whatever is counted |
| `RouteTable.RoutedOn` | src/fastapi_watch/middleware.py:296-307 | a path goes to its own bucket if it has one or there is room, and to the shared one otherwise, whatever was asked for before |
| `RouteTable.AllKnown` | src/fastapi_watch/middleware.py:296-307 | as long as no more than max_routes different paths are asked for, every request goes to its own path's bucket |
| `RouteTable.RouteStats.Record` | src/fastapi_watch/middleware.py:64-82 | the fields take the request in as the model does |
| `RouteTable.Middleware.GetOrCreate` | src/fastapi_watch/middleware.py:296-307 | a known route keeps its bucket, a new one gets its own below the bound and the shared one at it; no other entry changes |
| `RouteTable.Middleware.Record` | src/fastapi_watch/middleware.py:365-375 | a health request leaves no trace; any other joins the aggregate and exactly one bucket, and the table is again that of all paths asked for |
| `RouteTable.Middleware.EachPathItsOwn` | src/fastapi_watch/middleware.py:296-375 | while at most max_routes different paths were asked for, there is a bucket for each and no other, told exactly the requests of its path |
| `RouteTable.Middleware.RoutesSumToAggregate` | src/fastapi_watch/middleware.py:296-375 | the requests and errors of all routes add up to the aggregate's, in a table of at most max_routes + 1 entries |
| `FitEntry.CutIsPrefix` | src/fastapi_watch/storage.py:89-91 | the shortened error keeps the longest prefix of whole characters that fits |
| `FitEntry.CutShortens` | src/fastapi_watch/storage.py:89-91 | cutting bytes shortens the JSON by at least as many, escapes included |
| `FitEntry.CutIsLongest` | src/fastapi_watch/storage.py:88-92 | the cut keeps the longest prefix within the room there is, and nothing when there is none |
| `FitEntry.Sorts` | src/fastapi_watch/storage.py:72-72 | the order of dropping is the same values, largest first |
| `FitEntry.EstimateSuffices` | src/fastapi_watch/storage.py:71-78 | the first loop's estimate never errs on the wrong side, and is short by a fixed amount |
| `FitEntry.DropByEstimate` | src/fastapi_watch/storage.py:71-78 | the first loop drops the largest, and whenever it stops before all are gone the result really fits |
| `FitEntry.DropDetails` | src/fastapi_watch/storage.py:69-83 | what is dropped is at least as large as what stays, what stays keeps its order, nothing dropped would fit back but for the estimate's slack, and the result fits unless all is gone |
| `FitEntry.ShortenedSuffices` | src/fastapi_watch/storage.py:88-92 | shortening by the excess does, unless only the dots are left |
| `FitEntry.Fit` | src/fastapi_watch/storage.py:58-93 | a fitting result is unchanged; otherwise the details are cut when that is enough and the texts too when not, and of an error that must be cut the longest prefix of whole characters stays that the excess and the dots leave room for; over the budget exactly when no stage can fit, and then with the least length |
| `FitEntry.ShortErrorGrows` | src/fastapi_watch/storage.py:90-91 | for every text and excess: what is shortened is longer than the text if and only if the text is shorter than the dots |
| `HistoryLog.TagsKeepOrder` | src/fastapi_watch/redis_storage.py:218-219 | tags of one width sort as their numbers |
| `HistoryLog.TagsWrap` | src/fastapi_watch/redis_storage.py:218-219 | the first number beyond the width sorts before its predecessor, and not after it |
| `HistoryLog.TagsKeepOrderIff` | src/fastapi_watch/redis_storage.py:218-219 | the tags of all numbers below a bound sort as the numbers if and only if the bound is at most 16 to the width |
| `HistoryLog.WriteKeepsEnd` | src/fastapi_watch/redis_storage.py:338-341 | pruning by age and by rank while writing removes only entries that can no longer be read |
| `HistoryLog.ReadIsCurrent` | src/fastapi_watch/redis_storage.py:349-367 | a read of what is left gives the last max_results entries no older than the TTL, oldest first, of everything ever appended |
| `HistoryStores.UnexpiredIsFresh` | src/fastapi_watch/storage.py:310-313 | the comprehension over the two deques keeps exactly the fresh entries |
| `HistoryStores.InMemoryHistory.Append` | src/fastapi_watch/storage.py:296-303 | the parallel deques hold the last entries of the log and their times |
| `HistoryStores.InMemoryHistory.GetHistory` | src/fastapi_watch/storage.py:305-318 | the answer is the log's, of the names asked for or of all |
| `HistoryStores.InMemoryHistory.Forget` | src/fastapi_watch/storage.py:240-246 | exactly the named probes are gone |
| `HistoryStores.InMemoryHistory.Configure` | src/fastapi_watch/storage.py:221-238 | the newest entries that still fit stay and keep their times |
| `HistoryStores.LiveIsEnd` | src/fastapi_watch/redis_storage.py:342-345 | the expiry of a whole key takes away nothing that could be read |
| `HistoryStores.IndexKeeps` | src/fastapi_watch/redis_storage.py:242-250 | the index, its trimming and its expiry list every probe with something to read, whichever probe is written |
| `HistoryStores.IndexNameBounded` | src/fastapi_watch/redis_storage.py:242-250 | the index never lists a name older than the TTL at its last write, and expires |
| `HistoryStores.AppendedBounded` | src/fastapi_watch/redis_storage.py:332-347 | after an append every key holds at most max_results entries and expires within the TTL and its slack |
| `HistoryStores.AnswerIsRead` | src/fastapi_watch/redis_storage.py:349-367 | reading each selected name gives the log's answer, whether names are given or taken from the index |
| `HistoryStores.RedisHistory.IndexWrite` | src/fastapi_watch/redis_storage.py:242-250 | the index takes the model's step |
| `HistoryStores.RedisHistory.SetLatest` | src/fastapi_watch/redis_storage.py:289-299 | the index write of a latest result loses no history |
| `HistoryStores.RedisHistory.Append` | src/fastapi_watch/redis_storage.py:332-347 | everything readable of the extended log can be found, and the counter moves on by one |
| `HistoryStores.RedisHistory.GetHistory` | src/fastapi_watch/redis_storage.py:349-367 | the answer is the log's: the same as the in-memory backend's |
| `HistoryStores.SameAppend` | src/fastapi_watch/redis_storage.py:332-347 | an append extends the Redis log as it extends the in-memory log |
| `HistoryStores.SameForget` | src/fastapi_watch/redis_storage.py:414-426 | forgetting takes the same names out of both logs |
| `HistoryStores.RedisHistory.Forget` | src/fastapi_watch/redis_storage.py:414-426 | exactly the named probes are gone |
| `HistoryAgreement.SameAnswers` | src/fastapi_watch/redis_storage.py:289-426 | after any appends, latest results and forgets with the same times, made to both backends from empty, both return equal histories, whoever is asked for and whenever that is, and they are those the writes call for |
| `Timeline.ColourIsSegment` | src/fastapi_watch/static/dashboard.js:179-194 | an instant has a colour if and only if it lies in a segment of that status |
| `Timeline.Segments` | src/fastapi_watch/static/dashboard.js:179-194 | segments are in order, disjoint, of positive length, within the range, never two of one status touching, and at each instant show the latest point's status for as long as the gap allows |
| `Timeline.DrawColour` | src/fastapi_watch/static/dashboard.js:187-191 | a piece changes what is shown exactly on its own interval, whether it extends the last segment or starts one |
| `Timeline.DrawKeeps` | src/fastapi_watch/static/dashboard.js:187-191 | and leaves the segments ordered, disjoint, of positive length and without two of one status touching |
| `Timeline.OneDrawing` | src/fastapi_watch/static/dashboard.js:178-194 | no other list of segments shows the same: the intervals are maximal |
| `Timeline.GapThreshold` | src/fastapi_watch/static/dashboard.js:143-149 | unbounded below three points, else three times the upper median of the gaps, never under the minimum |
| `Timeline.Chart.AddPoint` | src/fastapi_watch/static/dashboard.js:98-104 | a point is added if and only if it is newer than all, and times stay increasing |
| `Timeline.Chart.CapPoints` | src/fastapi_watch/static/dashboard.js:110-117 | what stays is the longest stretch up to the newest point within both bounds |
| `Timeline.PointsFor` | src/fastapi_watch/static/dashboard.js:45-68 | one point per moment read, in order, with the status and the values of the last reading of that moment, and no other |
| `Deadline.ApplyKeepsInv` | src/fastapi_watch/alerts.py:240-263 | every step of the two threads keeps each socket in one place |
| `Deadline.EventsTell` | src/fastapi_watch/alerts.py:240-263 | which sockets are in hand, and which are shut down or about to be, follows from what was watched, released and when the deadline fell |
| `Deadline.EveryWatchedSocketIsCut` | src/fastapi_watch/alerts.py:240-263 | over every interleaving, from the events alone: no socket is shut down before the deadline or twice, and once both threads are done exactly those were that the deadline found in hand or that were handed over after it |
| `Deadline.RequestDeadline.Watch` | src/fastapi_watch/alerts.py:240-247 | the watching thread shuts the socket down itself exactly when the deadline had passed |
| `Deadline.RequestDeadline.Expire` | src/fastapi_watch/alerts.py:249-254 | the timer shuts down exactly the sockets held |
| `Deadline.RequestDeadline.Close` | src/fastapi_watch/alerts.py:256-262 | releases exactly the sockets held |
| `Deadline.Share` | src/fastapi_watch/alerts.py:288-289 | an attempt gets the smaller of the timeout and what is left of the budget, and no limit exactly when there is neither |
| `Deadline.ConnectWithin` | src/fastapi_watch/alerts.py:272-302 | all attempts end by the deadline, the first address that answers within its share is taken, and a timeout is raised exactly when the budget ran out |

## Left out

- AlertRegistry.Registry.TakeAlert: the claim and the dispatch that follow are not part of it; claims are modelled in `AlertClaims`, dispatch is a foreign call.
- AlertRegistry.Registry.ForgetUnregistered: the other dictionaries it prunes and the storage's `forget` are not part of it; the latter is modelled in `HistoryStores`.
- HistoryStores.InMemoryHistory.Forget: the latest results dropped by the same call are not modelled; they are single values.
- HistoryStores.InMemoryHistory.Configure: the alert log resized by the same call is not modelled; it is the same deque under one key.
- HistoryStores.RedisHistory.SetLatest: the stored value and its own expiry are not modelled, only its write to the index.
- HistoryStores.RedisHistory.Forget: the latest-result keys deleted by the same transaction are not modelled.
- Timeline.PointsFor: the conversion of the single plotted fields is not modelled; a point carries them as one value.
- FitEntry.Fit: JSON lengths of a value are taken as given and add up; characters that cannot be encoded are excluded, as the source cannot serialize them either.
- CallStats.PassiveProbe.Record: the lifetime figures and the latest error and success are one record field each, not one field per attribute.
- RouteTable.RouteStats.Record: the lifetime figures are one record field.
- `async_gen_wrapper`: the same loop as `gen_wrapper` with awaited steps; only the hooks around its first step differ, and they concern the interpreter's finalizer.
- `_record_cache_delta` and cache hits: single increments.
- A failing or timed-out claim, which sends the alert anyway: claims are taken to succeed.
- Payloads and retries of the alerters.
- Two probes registered under one name, and startup probes.
- `_flush_writes` as a loop, and its time limit: what is proved is when what it waits for comes about.
- Storage writes inline in memory, and what a storage call that fails does beyond being attempted.
- Commands of the Redis backend wait for a slot after they read the clock; each is one step at one moment here, and moments do not go back.
- Entries that another version wrote and this one cannot decode; members of several instances with equal scores.
- `get_latest` in both backends, and their logs of alerts: the first a single value with a TTL, the second the same log under one key.
- `_route_key` and the health-route test: a request arrives with its route, or as one of the health routes.
- Messages of one request are sent one after another: an application sending from two tasks at once is not modelled.
- Rounding of what snapshots report, and floating-point error.
- Sizes below the numeric limits of the platform: counters and clocks are unbounded.
- HTTP routes, authentication, stream tokens, server-sent events, rendering and charts, route discovery, concrete probes, webhook payloads and validation.
