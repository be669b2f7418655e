# Logbook, verified

A Dafny model of the deterministic state machines that Logbook's cron-driven
pipeline rests on, and proofs of what they promise. One module or a few follow
each source file; where the source changes things in place (a clone of the
exchange, the advisory runner, the alert state, the compactor's groups, the
watermarks, the capped log, the page directory, the delivery audit), the model
is a class or a method with loops, proved against a specification over values,
and the promises are lemmas over whole runs of that specification.

- **Research exchange** (`Exchange`, `ExchangeProtocol`, `ExchangeTimes`,
  `ExchangeClone`): the work queue whose only lock is a git push. `Exchange` has
  the files of the shared tree and what each operation makes of them; `ExchangeProtocol` has one
  versioned remote, any number of clones, and every interleaving of their steps;
  `ExchangeTimes` has what such a run says of one claim and one answer over time;
  `ExchangeClone` has the operations as one clone carries them out, file by file,
  with what git answers as parameters.
- **Advisory runner** (`Advisory`, `AdvisoryRuns`, `AdvisoryPromises`): the spend
  read from the ledger, admission, reservations and slots; every interleaving of
  request threads and workers, one access to shared state at a time, with
  restarts, prunes and sweeps.
- **Alerts** (`Alerts`, `AlertDispatch`, `AlertRuns`, `AlertHistory`): evaluation of
  an assessment against the remembered fingerprints, sending with failures, and
  whole runs of dispatches.
- **Compactor** (`Compactor`, `CompactorScan`): the one-pass scan with group caps,
  the code rescue and the context windows, against a description of the same
  result over the whole list of events.
- **Tick and catch-up** (`Catchup`): one watermark per database and the failures
  of each stage.
- **Cron** (`Calendar`, `Cron`): fields, the day rule and the search for the next
  run, over the proleptic Gregorian calendar.
- **Capped log** (`HealthLog`), **git output** (`Octets`, `GitUtil`), **deep
  links** (`DeepLink`), **daily pages** (`DailyHtml`), **delivery** (`Delivery`).
- `Wrappers`, `Text`, `Numbers`: options and results, the order `sorted` uses on
  strings, counters and their sums.

Where the code and what is written about it differ, the model follows the code:

- A claim is documented to take the oldest pending request
  (`src/dbwiki/exchange.py:254`, `src/dbwiki/exchange.py:332`). It takes the newest
  request of a (kind, key), in the group whose newest request is oldest
  (`ExchangeClone.SelectClaimTarget`). `Exchange.OldestNotTaken` has three pending
  requests of which the oldest is passed over; `Exchange.TakesOldestWhen` says
  exactly when the oldest is taken.
- In a cron field `n/step` runs on to the end of the range, but `n/1` is `n` alone
  (`elk/scripts/emit_derived.py:106`).
- `run_one_db` is documented never to raise. It raises exactly when the decision was
  made and then a later call and the handler's own record of the decision both
  raise, or the ledger cannot be read after an ingest (`Catchup.EscapesWhen`). The
  tick ends early for the databases after it exactly then
  (`Catchup.Pipeline.RunTick`).
- What a catch-up could not reach is printed, and is meant for the run record too. Of
  the printed lines and the digests the promise holds always
  (`Catchup.NoSilentGap`); of the run record it holds if and only if no tick lost
  its facts after it moved the watermark past a stretch that nothing else covers
  (`Catchup.RecordedUnlessLost`).
- At most `max_events` lines are said to survive a trim. With a cap of zero the
  slice keeps every line, and the log grows for ever (`HealthLog.ZeroKeepsAll`);
  the bound holds for every positive cap (`HealthLog.StaysShort`).
- The count ceiling is no ceiling on what the ledger already held when the process
  started; `AdvisoryPromises.CountCeiling` says exactly when it holds.
- The framing of `cat-file --batch` is read back for all blob contents, but not for
  every missing path with a newline in it. A path whose first line does not end in
  " missing" is never read right, wherever it stands (`GitUtil.NewlineBreaks`), and
  for a path asked for last, the ones before it being read, that is exactly when it
  fails (`GitUtil.MissingLast`). When none of the paths is there the result is right exactly when enough lines of
  the echo end in " missing" (`GitUtil.NoneThere`).
- The default search bound of `next_run` is not always enough. From 29 February
  four years before a century that is no leap year to 24 February of that century,
  and from no other day, it reaches no later 29 February (`Cron.LeapDayReached`);
  `Cron.NextRunDefault` says exactly which searches find nothing because of it, and
  `Cron.CenturyOutOfReach` has one.

## Model

| member | source | states |
|---|---|---|
| `Exchange.RefusedNameIsNoRequest` | src/dbwiki/exchange.py:237-250 | a rejected result's file in `failed/` never takes the name of a request that was given up |
| `Exchange.SafeIdIs` | src/dbwiki/validate.py:17-46 | a safe id starts with a letter or digit, has one to 200 letters, digits, dots, underscores and dashes, and nowhere two dots in a row |
| `Exchange.TakesOldestWhen` | src/dbwiki/exchange.py:253-271 | what a claim takes is an oldest pending request if and only if some oldest request has no newer pending duplicate of its own work |
| `Exchange.OldestPassedOver` | src/dbwiki/exchange.py:253-271 | an oldest request that is passed over for a younger one has a newer pending duplicate, and outlives the claim unless it is of the same work |
| `Exchange.OldestNotTaken` | src/dbwiki/exchange.py:253-271 | K pending since 1 and 5 and L since 3: the claim takes L and leaves the oldest request there is |
| `ExchangeProtocol.RunKeeps` | src/dbwiki/exchange.py:201-418 | every interleaving of the clones keeps directories, issued names, held claims and clone views in agreement with the history of commits |
| `ExchangeProtocol.ApplyKeeps` | src/dbwiki/exchange.py:201-418 | each single step, landed or lost, keeps that agreement |
| `ExchangeProtocol.OnePlace` | src/dbwiki/exchange.py:201-418 | an enqueued request is in exactly one of pending, claimed, given up, answered, superseded; a name never enqueued is nowhere |
| `ExchangeProtocol.AttemptsCount` | src/dbwiki/exchange.py:296-326 | `attempts` is the number of claims that ended in failure or reclaim; what can be claimed is below the limit, what reached it is in `failed/`, and nothing is claimed more often than the limit |
| `ExchangeProtocol.NoDoubleClaim` | src/dbwiki/exchange.py:329-374 | two claims of one file have a return to pending, by failure or reclaim, between them |
| `ExchangeProtocol.AnswersAreKept` | src/dbwiki/exchange.py:232-250 | an answer is in `results/`, folded, or in `failed/` with its reason: exactly one |
| `ExchangeProtocol.SupersededHasHeir` | src/dbwiki/exchange.py:201-222 | a step that supersedes a request leaves another of the same (kind, key) pending or claimed |
| `ExchangeProtocol.OneWinner` | src/dbwiki/exchange.py:343-374 | of two clones pushing from one head, the first push to land is the only one, and the loser of a claim ends on the winner's head |
| `ExchangeProtocol.LateAnswer` | src/dbwiki/exchange.py:377-391 | an answer that lands keeps its request in one place if and only if the claim is still there: what the stale-claim rule must assume |
| `ExchangeTimes.HeldSince` | src/dbwiki/exchange.py:329-374 | as long as a claim is in hand its record says who made it and when |
| `ExchangeTimes.ReclaimedExactly` | src/dbwiki/exchange.py:274-313 | a claim won at one time and still in hand when a reclaim lands is taken back by it if and only if more than `after` has passed |
| `ExchangeTimes.AnswerKept` | src/dbwiki/exchange.py:232-250 | whatever happens after a completion, the answer found of the request, in `results/` or refused, has its kind, key and run and the text that was given |
| `ExchangeClone.ReadRecords` | src/dbwiki/queue.py:104-117 | the records of a directory, each once, ordered by creation |
| `ExchangeClone.GroupPending` | src/dbwiki/exchange.py:256-260 | the pending records of the wanted kind, grouped by (kind, key), every member in its group |
| `ExchangeClone.OldestGroup` | src/dbwiki/exchange.py:263-270 | the group whose newest member was created first |
| `ExchangeClone.SelectClaimTarget` | src/dbwiki/exchange.py:253-271 | nothing exactly when nothing of the kind is pending; else the newest of its work in the group whose newest is oldest, with exactly the other members of its group |
| `ExchangeClone.Clone.Enqueue` | src/dbwiki/exchange.py:201-222 | an unsafe id changes nothing; else the file is named by kind, key and run and holds the request, and exactly the other pending requests of its kind and key are gone |
| `ExchangeClone.Clone.MoveStale` | src/dbwiki/exchange.py:296-313 | one file at a time: exactly the claims stamped more than `after` ago are moved, each with one attempt more to pending with its claim cleared or, at the limit, to `failed/` as `stale_claim`; every other file is untouched |
| `ExchangeClone.ReclaimMovesOld` | src/dbwiki/exchange.py:299-312 | a claim is moved if and only if it is stamped and the stamp plus `after` is past |
| `ExchangeClone.Clone.ReclaimStale` | src/dbwiki/exchange.py:274-326 | with an accepted push exactly those claims have moved, in one commit; with any other nothing has |
| `ExchangeClone.Clone.CommitClaim` | src/dbwiki/exchange.py:348-357 | one claim commit: the request moves to claimed with who and when, the other pending ones of its kind and key are gone, all else is as it was |
| `ExchangeClone.Clone.Round` | src/dbwiki/exchange.py:343-373 | one round of a claim: nothing to claim, won, push broken, file gone after resync, or again |
| `ExchangeClone.Clone.ClaimNext` | src/dbwiki/exchange.py:343-374 | a claim returned was a legal target on the very tree it was pushed onto; none is returned only for want of work, a lost file, or rounds used up |
| `ExchangeClone.Clone.Claim` | src/dbwiki/exchange.py:329-374 | the same after a pull and a reclaim of stale claims |
| `ExchangeClone.WonRoundIsStep` | src/dbwiki/exchange.py:346-366 | a round that was won is the protocol's claim step on the remote |
| `ExchangeClone.EnqueueIsStep` | src/dbwiki/exchange.py:201-222 | an enqueue from an up-to-date clone is the protocol's enqueue step, superseding what the clone saw |
| `ExchangeClone.ReclaimIsStep` | src/dbwiki/exchange.py:274-326 | a reclaim whose push is accepted exactly for an up-to-date clone is the protocol's reclaim step; one refused leaves remote and clone as they were |
| `ExchangeClone.CompleteIsStep` | src/dbwiki/exchange.py:377-391 | a completion from an up-to-date clone is the protocol's answer step |
| `ExchangeClone.FailIsStep` | src/dbwiki/exchange.py:394-418 | a reported failure from an up-to-date clone is the protocol's failure step, returned or exhausted |
| `ExchangeClone.RejectIsStep` | src/dbwiki/exchange.py:237-250 | a rejection from an up-to-date clone is the protocol's rejection step |
| `ExchangeClone.Clone.Complete` | src/dbwiki/exchange.py:377-391 | the claim is gone and the file named by run and key holds the answer with the request's kind, key and run and the given text, or nothing changes for an unsafe id |
| `ExchangeClone.Clone.FailRequest` | src/dbwiki/exchange.py:394-418 | one attempt more: back to pending with the claim cleared below the limit, to `failed/` with the category at it |
| `ExchangeClone.Clone.RejectResult` | src/dbwiki/exchange.py:237-250 | the result is gone from `results/` and stands in `failed/`, its name prefixed, with the reason |
| `Advisory.ReadSpend` | src/dbwiki/advisory.py:931-972 | the loop gives the number of the tool's lines in the window, the number of priced ones and the sum of their prices |
| `Advisory.SpendShrinks` | src/dbwiki/advisory.py:931-972 | a later window start never counts more runs or cost, and measured runs are runs |
| `Advisory.SpendAppended` | src/dbwiki/advisory.py:931-972 | one more ledger line adds itself, if it is of the tool and in the window, and nothing else |
| `Advisory.AdmissionIsCalled` | src/dbwiki/advisory.py:931-1016 | the decision on spend is the verdict the ledger's lines call for, each case exactly when |
| `Advisory.SweepTwice` | src/dbwiki/advisory.py:1281-1300 | a sweep interrupts exactly the runs another boot left queued or running, and a second sweep changes nothing |
| `Advisory.Runner.Admit` | src/dbwiki/advisory.py:1346-1361 | the verdict read off the ledger: `max_runs` exactly when the tool's lines stamped within the last `window` (all its lines without a clock) plus its reservations reach the ceiling, then `cost_unknown`, `max_cost`, `busy` by unpriced runs, summed prices and free slots, else go; a go takes a slot and a reservation |
| `Advisory.ReleaseUndoes` | src/dbwiki/advisory.py:1346-1370 | the release after an admission gives back exactly what the admission took: the slots and every tool's reservations are as before |
| `Advisory.ReleaseCommutes` | src/dbwiki/advisory.py:1346-1370 | a release of a held reservation and an admission of any tool give the same pool in either order |
| `Advisory.Runner.Sweep` | src/dbwiki/advisory.py:1281-1300 | every record as the present process sees it |
| `AdvisoryRuns.ApplyKeeps` | src/dbwiki/advisory.py:1202-1370 | each access of any thread keeps locks, slots, window and money in order |
| `AdvisoryRuns.AdmitRoom` | src/dbwiki/advisory.py:1346-1361 | at an admission, the tool's lines of the last `window` and its unlogged runs leave room for one more: what the check did not see in the ledger it saw as a reservation |
| `AdvisoryRuns.AdmitIsStep` | src/dbwiki/advisory.py:1346-1361 | `Runner.Admit` is the ledger read and the decision of the interleaved model with no step between: same verdict, same pool, a ticket exactly on a go |
| `AdvisoryRuns.ReleaseIsStep` | src/dbwiki/advisory.py:1363-1370 | `Runner.Release` is the release step of a worker that is through, and of a start that failed |
| `AdvisoryRuns.StartsWhole` | src/dbwiki/advisory.py:1143-1165 | the server starts with a slot for each concurrent run, at least one, and no reservation |
| `AdvisoryRuns.IsAnswered` | src/dbwiki/advisory.py:1229-1233 | a request whose run has a record that was not refused is answered with it; any other goes on to admission |
| `AdvisoryRuns.IsRefused` | src/dbwiki/advisory.py:1243-1251 | a refusal leaves a refused record and nothing else |
| `AdvisoryRuns.FailsToStart` | src/dbwiki/advisory.py:1252-1264 | a start that fails after admission leaves a failed record, no line and no call, and gives slot and reservation back |
| `AdvisoryRuns.Starts` | src/dbwiki/advisory.py:1252-1257 | a start leaves a queued, then a running record, and the door open, with the reservation still held |
| `AdvisoryRuns.Works` | src/dbwiki/advisory.py:1302-1344 | a worker makes one call, writes one line with the present time and its cost, then a record that says how it went, and gives slot and reservation back |
| `AdvisoryRuns.LogKeeps` | src/dbwiki/advisory.py:1336-1344 | writing the ledger line before the release keeps the ceilings |
| `AdvisoryRuns.DroppedKeeps` | src/dbwiki/advisory.py:1363-1370 | giving a slot back, after a run or a failed start, keeps them |
| `AdvisoryPromises.CountCeiling` | src/dbwiki/advisory.py:1302-1370 | in every reachable state, the tool's ledger lines stamped within the last `window` plus its admitted runs without a line are at most `max_runs`, if and only if the tool has admitted a run or the lines found at the start and still in the window are |
| `AdvisoryPromises.CeilingFromTheStart` | src/dbwiki/advisory.py:1302-1370 | a ledger within the ceiling at the start never leaves it |
| `AdvisoryPromises.DollarCeiling` | src/dbwiki/advisory.py:995-1016 | with a dollar ceiling a tool has one run at a time, and the prices of its lines within the last `window`, its last line left out, sum to less than the ceiling |
| `AdvisoryPromises.OneCallPerRun` | src/dbwiki/advisory.py:1202-1264 | over re-posts, failures and restarts a run id is sent to the model at most once, plus once per prune of its record |
| `AdvisoryPromises.SlotsAddUp` | src/dbwiki/advisory.py:1143-1165 | free slots plus the sum of all reservations are always the capacity, which is at least one |
| `AdvisoryPromises.IdleTool` | src/dbwiki/advisory.py:1302-1344 | a tool that never admitted a run owns no new ledger line |
| `AdvisoryPromises.LinesTell` | src/dbwiki/advisory.py:1310-1344 | every line a run adds to the ledger is of a run that finished, with its tool and id, the time it finished and what it cost |
| `Alerts.UniqueFacts` | src/dbwiki/alerts.py:115-174 | de-duplication loses no fingerprint, keeps one finding of each, and adds none |
| `Alerts.ListedIs` | src/dbwiki/alerts.py:121-168 | exactly which findings an assessment raises, category by category, and what each carries |
| `Alerts.SameFingerprint` | src/dbwiki/alerts.py:72-84 | two findings share a fingerprint exactly when category and detail agree and database and source do, absent ones alike |
| `Alerts.SameKey` | src/dbwiki/alerts.py:105-112 | two findings are measured against each other within one (database, source), or, when they have neither, within one category |
| `Alerts.Findings` | src/dbwiki/alerts.py:115-174 | the loop keeps the first finding of each fingerprint |
| `Alerts.EvaluateOne` | src/dbwiki/alerts.py:229-263 | one finding's entry and the alert it calls for, as `AlertHistory.FirstOfEpisode`, `AlertHistory.RetriedAsItWas` and `AlertHistory.EntryTells` say of every run |
| `Alerts.Evaluate` | src/dbwiki/alerts.py:203-275 | the alerts, the next book and the recoveries of an assessment |
| `AlertDispatch.SendAll` | src/dbwiki/alerts.py:646-655 | exactly the failed sends are marked undelivered, and counted |
| `AlertDispatch.Dispatcher.Dispatch` | src/dbwiki/alerts.py:620-659 | the next state; errors are the alerts whose send failed and alerted the others; a sink that cannot be built leaves the state as it was |
| `AlertDispatch.NextBookAt` | src/dbwiki/alerts.py:203-306 | after a dispatch the book holds exactly the current fingerprints, each with its own entry |
| `AlertRuns.SentOncePerEpisode` | src/dbwiki/alerts.py:203-275 | no fingerprint is delivered twice without a dispatch between that did not see it |
| `AlertRuns.RecoveredWasDelivered` | src/dbwiki/alerts.py:265-273 | what is reported recovered was delivered in the episode that ended |
| `AlertRuns.VanishedIsAccounted` | src/dbwiki/alerts.py:203-275 | a fingerprint that vanishes is reported recovered, was never delivered, or is replaced by an escalation of the same evaluation: exactly one |
| `AlertRuns.ArrivalEscalates` | src/dbwiki/alerts.py:222-262 | a category that arrives where one vanished is alerted as its escalation |
| `AlertRuns.GlobalNeverEscalates` | src/dbwiki/alerts.py:105-112 | a global finding is never alerted as an escalation, retries included |
| `AlertRuns.RetriesBackOff` | src/dbwiki/alerts.py:292-306 | the attempt after n failures comes no sooner than the sum of n delays after the first; from five on, 15.5 hours and 12 hours each |
| `AlertRuns.TotalDelayClosed` | src/dbwiki/alerts.py:65-69 | 30 minutes doubling to 12 hours, summed |
| `AlertRuns.NextAttempt` | src/dbwiki/alerts.py:282-290 | a failed send is tried again exactly when a dispatch that sees it comes after the delay |
| `AlertHistory.FirstOfEpisode` | src/dbwiki/alerts.py:247-262 | the first dispatch that sees a fingerprint alerts it: as new, or, when categories vanished from its database and source, as an escalation from the first of them in order |
| `AlertHistory.RetriedAsItWas` | src/dbwiki/alerts.py:235-246 | the next alert after a failed send has its reason, what it escalated from and when it was first seen |
| `AlertHistory.EntryTells` | src/dbwiki/alerts.py:229-258 | an entry is there while its episode lasts, counts the dispatches that saw it, and has the time of the last one and of its delivery |
| `Compactor.KeptAtFirst` | src/dbwiki/compactor.py:300-322 | a key is kept at its first event or never: kept and dropped keys stay apart for the whole scan |
| `Compactor.DroppedStays` | src/dbwiki/compactor.py:302-314 | a key turned away is turned away for good |
| `Compactor.AtMostTwice` | src/dbwiki/compactor.py:303-313 | unmatched events get at most twice `max_unmatched` groups, every other rule at most twice `max_groups` |
| `Compactor.KeptWhen` | src/dbwiki/compactor.py:300-322 | a key gets a group if and only if, when it first occurs, its rule has fewer groups than its own limit, or fewer than twice that and the key has a code no group shows yet |
| `Compactor.AllKept` | src/dbwiki/compactor.py:303-313 | a rule with no more distinct keys than its own limit keeps every one of them |
| `Compactor.SameKey` | src/dbwiki/compactor.py:300 | two events share a group exactly when rule, template and codes agree |
| `Compactor.CodesCovered` | src/dbwiki/compactor.py:303-314 | unless a rule filled twice its cap, every code on any of its events is on some kept group |
| `Compactor.KeptDistinct` | src/dbwiki/compactor.py:300-322 | kept keys are distinct and each is the key of a notable event |
| `CompactorScan.SpanIsSpan` | src/dbwiki/compactor.py:76-82 | first and last timestamps are the least and the greatest of the group's events, the earlier seen on a tie |
| `CompactorScan.RowStep` | src/dbwiki/compactor.py:76-84 | one event more: what it adds to a group and to its context is what the longer list says |
| `CompactorScan.RowNew` | src/dbwiki/compactor.py:313-322 | a group opened at its key's first event is the group of the whole list so far |
| `CompactorScan.FeedLine` | src/dbwiki/compactor.py:281-284 | every open context takes the line; exactly those still short stay open |
| `CompactorScan.DequeIsPreceding` | src/dbwiki/compactor.py:285-286 | the bounded deque is the last `context_lines` lines |
| `CompactorScan.LedgerRight` | src/dbwiki/compactor.py:302-314 | groups opened, codes shown, keys and events dropped are, after any events, what the whole list says |
| `CompactorScan.RowsTrack` | src/dbwiki/compactor.py:251-322 | the rows built up event by event are the rows of the whole list |
| `CompactorScan.Group.Add` | src/dbwiki/compactor.py:76-84 | count, span and samples after one event |
| `CompactorScan.Books.Judge` | src/dbwiki/compactor.py:302-318 | whether an event opens a group, and every counter after it |
| `CompactorScan.Scan` | src/dbwiki/compactor.py:251-322 | every kept key's row has the number of its events, the least and greatest of their stamps, the ids of the first few and exactly the context lines around the first; a rule with no more keys than its own limit has a row for each and drops nothing; dropped events are the notable ones without a row, counted by rule |
| `CompactorScan.Conserved` | src/dbwiki/compactor.py:189-190 | group counts plus dropped events are the notable events |
| `CompactorScan.NotableTotal` | src/dbwiki/compactor.py:189-190 | the digest's sum over groups and dropped events |
| `CompactorScan.Compact` | src/dbwiki/compactor.py:172-190 | every source scanned and summed: exactly the notable events of all sources, whatever the caps |
| `Catchup.Pipeline.CatchUp` | src/dbwiki/cli.py:748-790 | the whole day's digest unless compaction or its first write failed; an older watermark is printed and handed to the run record; failure is returned |
| `Catchup.Pipeline.FirstTry` | src/dbwiki/cli.py:837-866 | where the first `try` raises, if it does, and what is written by then: digests, watermark, facts |
| `Catchup.Pipeline.RunOneDb` | src/dbwiki/cli.py:829-888 | one database's tick through handler and ingest leaves every other database alone |
| `Catchup.Pipeline.RunAll` | src/dbwiki/cli.py:1017-1019 | a failing database does not touch the others; only an error that leaves `run_one_db` leaves later ones unrun |
| `Catchup.Pipeline.RunTick` | src/dbwiki/cli.py:1017-1020 | a tick reaches its last database if and only if no database has a decision made and then both a later call and its handler's record raising, or a ledger unreadable after an ingest; its status is failed exactly when some database's is |
| `Catchup.EscapesWhen` | src/dbwiki/cli.py:837-888 | the code's first error, handler and ingest let an error out exactly under that condition on the calls that raise |
| `Catchup.ReturnsWhen` | src/dbwiki/cli.py:837-888 | the error flag, the catch-up's and the stage returned, each from the calls that raised |
| `Catchup.FailedWhen` | src/dbwiki/cli.py:1017-1020 | a database counts as failed exactly when it returns and a call of the first `try`, the ingest or an owed catch-up failed |
| `Catchup.CaughtUpWhen` | src/dbwiki/cli.py:734-745 | yesterday is asked for exactly when the watermark stops before today's midnight |
| `Catchup.DigestsAfter` | src/dbwiki/cli.py:748-850 | which days' digests a tick writes and where each ends; every other day is as it was |
| `Catchup.MovesOrStays` | src/dbwiki/cli.py:838-850 | the watermark moves to the tick's time exactly when today's digest got out and no catch-up is owed; otherwise it stays |
| `Catchup.AskedAgain` | src/dbwiki/cli.py:734-745 | a failed catch-up is asked for again by the next tick, whatever its day |
| `Catchup.TickCovers` | src/dbwiki/cli.py:829-888 | any tick with any failure keeps everything up to the watermark in a digest or printed, and never moves the watermark back |
| `Catchup.NoSilentGap` | src/dbwiki/cli.py:734-888 | every instant between an earlier watermark and the current one is in a digest on disk or in a stretch printed on stderr |
| `Catchup.ReportsOldMarks` | src/dbwiki/cli.py:761-766 | a stretch is printed exactly when the watermark could be read and is older than yesterday, and is exactly that stretch; the run record has it unless the handler raised |
| `Catchup.RecordedUnlessLost` | src/dbwiki/cli.py:734-888 | digests and run records cover everything between an earlier watermark and the current one if and only if no tick since moved the watermark past a stretch nothing else covers and then failed to record it |
| `Catchup.DailyMovesReportNothing` | src/dbwiki/cli.py:734-766 | as long as the watermark moves at least once every day, no stretch is ever reported |
| `Calendar.NextDayIsNext` | elk/scripts/emit_derived.py:155 | adding a day gives the date whose day number is one more |
| `Calendar.OrdOrders` | elk/scripts/emit_derived.py:142-156 | day numbers order dates as the calendar does and tell them apart |
| `Cron.ParsePart` | elk/scripts/emit_derived.py:93-107 | one part selects exactly the values of its range in bounds, negative steps included |
| `Cron.ParseField` | elk/scripts/emit_derived.py:87-108 | a field selects what some part selects; a zero step is an error |
| `Cron.ParseCron` | elk/scripts/emit_derived.py:111-124 | five fields with their bounds, or an error |
| `Cron.Spellings` | elk/scripts/emit_derived.py:98-107 | `*`, `a-b` and `n` mean everything, the range and the value |
| `Cron.Stepping` | elk/scripts/emit_derived.py:94-107 | a step after `*`, `a-b` or `n` means every s-th value from the first, but `n/1` is `n` |
| `Cron.SteppingDown` | elk/scripts/emit_derived.py:93-107 | a negative step runs down from the start and stops short of the value after the end |
| `Cron.FirstOnDay` | elk/scripts/emit_derived.py:150-154 | the nested loops find the least hour and minute not before the start, or there is none |
| `Cron.SundayIsZero` | elk/scripts/emit_derived.py:130 | 4 January 2026, a Sunday, has weekday 0 |
| `Cron.WeekdayFollows` | elk/scripts/emit_derived.py:130 | the weekday of the next day is the next one, Sunday after Saturday |
| `Cron.FiresWhen` | elk/scripts/emit_derived.py:127-139 | a day matches when its month does and, of the day fields that are not `*`, one does, a weekday being the days since a Sunday; with both `*` every day |
| `Cron.WeekdayFires` | elk/scripts/emit_derived.py:127-139 | with only a weekday given, a date fires exactly when it is that many days after a Sunday |
| `Cron.MondayAfterSunday` | elk/scripts/emit_derived.py:142-156 | `0 8 * * 1` asked on a Sunday runs on the Monday after, at eight |
| `Cron.NextRun` | elk/scripts/emit_derived.py:142-156 | the least firing minute strictly after the given time; nothing exactly when no day searched has one |
| `Cron.NoGap` | elk/scripts/emit_derived.py:142-156 | asking again from each answer enumerates every firing |
| `Cron.NextIsUnique` | elk/scripts/emit_derived.py:142-156 | there is one such minute |
| `Cron.LeapDayReached` | elk/scripts/emit_derived.py:142 | the default bound reaches a later 29 February exactly from a day outside 29 February of c-4 to 24 February of c, c a century that is no leap year |
| `Cron.WithinExactly` | elk/scripts/emit_derived.py:142-156 | fields that can fire have a later matching day within the default bound exactly when they match some day of every year or the start is outside that gap |
| `Cron.NextRunDefault` | elk/scripts/emit_derived.py:142-156 | from any start, with the default bound: a run is found exactly when the fields can fire and do so still today, or in every year, or the start is outside that gap; what is found is the next run |
| `Cron.CenturyOutOfReach` | elk/scripts/emit_derived.py:142-156 | `0 0 29 2 *` from 1 March 2096: the search finds nothing, though the expression fires on 29 February 2104 |
| `HealthLog.Process.AppendAndTrim` | src/dbwiki/health.py:230-244 | the file and the process's count after one append, trimmed or not |
| `HealthLog.Process.Trim` | src/dbwiki/health.py:238-244 | a stale count is corrected from the file; only a file over the cap is cut |
| `HealthLog.TrimsWhen` | src/dbwiki/health.py:230-244 | with a count read from the file the log is cut to its last `cap` lines exactly when it is over the cap by more than a tenth of it and one line, and never for a cap of zero |
| `HealthLog.TrimsByCount` | src/dbwiki/health.py:230-244 | with a count of its own a process trims by that, and a file not over the cap only corrects it |
| `HealthLog.AlwaysASuffix` | src/dbwiki/health.py:209-244 | whatever processes do, the log is the end of everything written and holds at least the smaller of that and the cap |
| `HealthLog.StaysShort` | src/dbwiki/health.py:230-244 | with a positive cap, after any append the length is within the cap and a tenth of it (one line below a cap of 20) for one process and that many times the processes holding a count, from any first length and with processes that end |
| `HealthLog.ZeroKeepsAll` | src/dbwiki/health.py:243 | with a cap of zero no line is ever dropped |
| `GitUtil.CatBlobs` | src/dbwiki/gitutil.py:116-147 | the walk by offset reads one answer per request, with its error cases |
| `GitUtil.BlobsRoundTrip` | src/dbwiki/gitutil.py:116-147 | reading git's batch output gives back exactly the contents of the wanted paths that exist, for any bytes |
| `GitUtil.FoundExample` | src/dbwiki/gitutil.py:139-146 | the format of a found blob, written out |
| `GitUtil.MissingExample` | src/dbwiki/gitutil.py:139-146 | and of a path that is not there |
| `GitUtil.NewlineBreaks` | src/dbwiki/gitutil.py:139-146 | anywhere after requests that are read, a missing path with a newline whose first line does not end in ` missing` is never read right: the reader raises when that line ends in no number, and otherwise raises or makes up a content for the path |
| `GitUtil.MissingLast` | src/dbwiki/gitutil.py:139-146 | a missing path asked for last is read right if and only if its request has no newline or its first line ends in ` missing` |
| `GitUtil.NoneThere` | src/dbwiki/gitutil.py:139-146 | when no path is there, the result is right if and only if as many leading lines of the echo as there are paths end in ` missing` |
| `GitUtil.NoHeaderRaises` | src/dbwiki/gitutil.py:139-141 | output that ends before an answer has its header makes the reader raise |
| `GitUtil.ChangedPaths` | src/dbwiki/gitutil.py:88-100 | the walk by index over NUL-separated fields, with its error case |
| `GitUtil.StatusRoundTrip` | src/dbwiki/gitutil.py:72-100 | reading git's status output gives back every path in order, both names of a rename or copy |
| `GitUtil.StatusExamples` | src/dbwiki/gitutil.py:88-100 | a rename, a copy and a change as git prints them, written out |
| `GitUtil.SecondName` | src/dbwiki/gitutil.py:88-100 | a second name follows exactly the records with an R or a C in either place |
| `GitUtil.LastField` | src/dbwiki/gitutil.py:91-99 | a last record short of its second name raises, any other is read, and what is too short for a record is passed over |
| `Octets.DecimalRoundTrip` | src/dbwiki/gitutil.py:144 | a size printed in decimal is read back |
| `Octets.ParsesWhen` | src/dbwiki/gitutil.py:144 | a size is one or more digits, and nothing else is one |
| `DeepLink.UnquoteQuoted` | src/dbwiki/deeplink.py:144-148 | percent-decoding undoes the encoding, whatever follows |
| `DeepLink.QuoteCharIs` | src/dbwiki/deeplink.py:144-148 | letters, digits, `_.-~` and the safe characters stand for themselves, every other one is a percent sign and two hexadecimal digits |
| `DeepLink.StrippedIs` | src/dbwiki/deeplink.py:148 | the base without the slashes at its end |
| `DeepLink.RisonReads` | src/dbwiki/deeplink.py:152-155 | a rison string read from its opening quote gives the value and stops at the quote that follows it |
| `DeepLink.KqlReads` | src/dbwiki/deeplink.py:158-160 | a KQL literal is read back and ends where it was closed |
| `DeepLink.FillTakesExactly` | src/dbwiki/deeplink.py:134-149 | a checked template is filled exactly when given its own names, the base aside, and no other |
| `DeepLink.ExtractsValues` | src/dbwiki/deeplink.py:134-149 | reading the URL hole by hole up to the first reserved character gives back the values: none can add a parameter, segment or fragment |
| `DeepLink.FillReads` | src/dbwiki/deeplink.py:134-149 | for any template row: the values come back, and the decoded URL is the template with them in it |
| `DeepLink.StateReads` | src/dbwiki/deeplink.py:84-110 | the decoded state is read back string by string, each ending at the template's own closing quote |
| `DeepLink.LogsRead` | src/dbwiki/deeplink.py:237-263 | undoing all three escapings of a logs link gives back window, data view, entity and signature |
| `DeepLink.QueryReads` | src/dbwiki/deeplink.py:256 | the query is the two literals joined by `and`, and nothing else |
| `DeepLink.LogsOnlyFromOracle` | src/dbwiki/deeplink.py:143-149 | a reference naming any other row is refused |
| `DeepLink.TableSound` | src/dbwiki/deeplink.py:87-131 | every row passes the import-time check, starts with the base and nowhere else has it, and ends each hole at a reserved character |
| `DailyHtml.PrevIsNearest` | src/dbwiki/daily_html.py:690-693 | the previous link is the nearest rendered day before |
| `DailyHtml.NextIsNearest` | src/dbwiki/daily_html.py:690-694 | the next link is the nearest rendered day after |
| `DailyHtml.OthersStand` | src/dbwiki/daily_html.py:846-858 | a day that comes in changes the links of its two neighbours and no other |
| `DailyHtml.Site.Renav` | src/dbwiki/daily_html.py:867-873 | the navigation is swapped when found exactly once, else the page is drawn again |
| `DailyHtml.Site.WriteDaily` | src/dbwiki/daily_html.py:846-884 | the pages after one write, of which exactly the day's and its neighbours' are written |
| `DailyHtml.WrittenRight` | src/dbwiki/daily_html.py:846-884 | whatever was there before, the day and its neighbours end up right and the other pages untouched |
| `DailyHtml.TextsRight` | src/dbwiki/daily_html.py:846-884 | the day is drawn from its own content; a neighbour keeps its text when it has one navigation and else is drawn again from its own content |
| `DailyHtml.AlwaysLinked` | src/dbwiki/daily_html.py:846-884 | from an empty directory, days written in any order and any number of times, every page links to its immediate neighbours |
| `DailyHtml.PastKept` | src/dbwiki/daily_html.py:867-873 | a past page with one navigation keeps its text |
| `Delivery.Resolve` | src/dbwiki/delivery.py:125-200 | the configuration is taken exactly when its rows and the whole are in order; each recipient keeps its id, address and channels, and a missing role is the viewer's |
| `Delivery.PlannedKeysDistinct` | src/dbwiki/delivery.py:139-155 | a resolved policy always decides, and no two planned keys are equal, the inbox's included |
| `Delivery.EmailsAreRecipients` | src/dbwiki/delivery.py:341-351 | the email rows are exactly those of the recipients naming the channel |
| `Delivery.PlanIs` | src/dbwiki/delivery.py:325-351 | the plan, row by row: the inbox's and, when mail goes out, one for each recipient on the email channel, to its address and under its key |
| `Delivery.KeysDiffer` | src/dbwiki/delivery.py:258-260 | within a review a key names its recipient |
| `Delivery.Dispatch` | src/dbwiki/delivery.py:396-425 | what is planned and not delivered is tried once, in order, with one audit row each |
| `Delivery.DeliveredAtMostOnce` | src/dbwiki/delivery.py:396-425 | over any dispatches against one audit no key of a review is delivered twice |
| `Delivery.EveryOtherRetried` | src/dbwiki/delivery.py:396-425 | a planned key not delivered is tried again and is delivered unless it fails |
| `Delivery.Merge` | src/dbwiki/delivery.py:428-436 | the loops give the rows by key, attempts after rows |
| `Delivery.MergedShape` | src/dbwiki/delivery.py:428-436 | one row per key, sorted by key, for exactly the keys there are, the last given for each |
| `Delivery.LastAttemptStands` | src/dbwiki/delivery.py:428-436 | the last attempt of a key is its row from then on |
| `Delivery.BatchesFold` | src/dbwiki/delivery.py:428-436 | folding attempts in two batches is folding them at once |

## Left out

- The exchange's local mode (`push=False`), batch commits, and a claim whose push
  fails for another reason than a rejection: the model has it raise with the commit
  left in the clone, as the code does, and does not follow that clone further.
- Best-effort pushes and push-with-rebase (`enqueue`, `complete`, `fail_request`)
  land as one step on the current remote; conflicts git itself reports are not
  modelled. File and result names are fresh per enqueue. A reclaim hits only claims
  whose researcher is dead; `ExchangeProtocol.LateAnswer` says what depends on it.
- Result files that do not parse, and records without the fields they should have.
- Advisory: the window is in the clock's own unit; failing record or ledger writes, two processes on one ledger, a ledger cap
  smaller than the window, and which records a sweep prunes (any may be).
- Advisory packs, prompts, citations and answers, and the portal around them.
- Alerts: fingerprints are the tuple hashed, not its hash; an unparsable `now`; the
  sinks themselves.
- Compactor: routine counters, registry, change stamps, trace evidence, rate
  anomalies, the sorting of rows and dropping of context past `context_max_groups`.
  A rule's class, template and codes are given per event.
- Catch-up: watermarks written by `compact` and `backfill`, ticks of a clock that goes
  back, watermarks that are not timestamps, and errors of the telemetry.
- Cron: splitting the text of an expression, `int` of its pieces, years beyond 9999 and
  time zones with daylight saving.
- Capped log: lines are whole; other line breaks than a newline, a file without its last
  newline, and failing reads or writes.
- Git output: object types other than what `cat-file` announces for a found path,
  decoding of names (paths are bytes), and the other spellings `int` takes (signs,
  underscores, white space).
- Deep links: link states, retention, the window clamp and descriptions; text that is
  not valid Unicode.
- Daily pages: what a page says, the index page, and files that are not days.
- Delivery: rendering, SMTP, an audit log trimmed by its cap, and a crash between a send
  and its audit row.
- ExchangeClone.Clone.ReclaimStale: claims whose stamp does not parse are those without
  one.
- GitUtil.NewlineBreaks: a bad path whose first line ends in a number, or one that is
  read by luck, followed by paths that are there: what comes out depends on their
  contents. The exact conditions are for a last path and for paths none of which is
  there.
