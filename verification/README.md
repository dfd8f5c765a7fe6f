# ShortQ in Dafny

A model of the parts of ShortQ that have to be right together, with proofs.

**The click pipeline.** A redirect mints an event, publishes it with a confirmation or falls back to a direct write,
and a worker batches deliveries, commits them and settles each one. `Ledger`, `LedgerLaws` and `ClickLimit` are the
tables as values, with what one write, one batch and any mix of them do, and `Drift` says which clock readings make
rows and rollups disagree. `ClickStore` is the store's transactions as classes, proved against them. `Payload` is
what travels through the queue. `Pipeline` is the whole system as steps over tables, queues and unacknowledged
deliveries; its invariant holds in every run, and `PipelineLaws` draws from it that clicks count exactly once and
that retries run out. `Process` and `World` are one process among others: whatever it does is a step of the
pipeline, and others may step at any time. `Worker`, `Publisher` and its `Recorder` are the Go objects as classes
over that world, `Tracking` is a visit from its link to its answer, with its event minted and recorded on the way,
and `Server` puts the web server and the analytics worker together from empty queues. `RetryChannel` is the
confirmation channel behind the worker's retries, and `Fates` says which batches a worker owes the store and which
settlement each delivery deserves.

**Redirects.** `Links`, `LinkStore` and `LinkAPI` are links, the store's link transactions and the requests that
edit links; they keep permanent codes away from dynamic features. `Redirect` is the decision a visit gets, `Visits`
and `Fields` say which field decides and which is stored where, `Hosts` the host names and cache keys, `Coherence`
the cache as a step system, and `RedirectCache` the resolver and the handlers as classes. `Models`, `Users` and
`Text` hold what several modules share.

**Supporting loops.** `PeakCounters` (atomic maxima under every interleaving), `Limiter` (password attempts),
`Breakdown` and `Report` (analytics), `Pagination` and `Rebind`.

Failing calls, lost replies, crashes and other processes are free choices in the methods and steps. What can fail
counts its faults, so that a contract can say that a failure was not made up. `dafny verify dfyconfig.toml` checks
everything.

Where the code does not do what one might expect, the model follows the code and says exactly when it does:

- an event without a timestamp can be rolled up on the next day (`Ledger.AddConsistent`, `Ledger.SingleConsistent` and
  `Drift.BatchConsistent`, with `Ledger.MidnightDrift` as a case); redirects always set one and the worker accepts no
  other, so only a direct caller of the store can do this;
- an event id whose row was purged is counted again (`LedgerLaws.BatchCountsOnce` and `LedgerLaws.SingleCountsOnce`,
  with `Ledger.PurgeReopensID` as a case);
- once a retry publish has timed out, a late confirmation is taken for that of a later message, so no error need not
  mean that the message was replaced, and its event can be lost (`RetryChannel.NilMeansStored` and
  `RetryChannel.AnswersAreShifted`, with `RetryChannel.LateConfirmationLoses` as a case); the other modules take the
  retryer to keep its interface's promise, as it does until then (`RetryChannel.TruthfulAtFirst`);
- the retry delay overflows from attempt 37 on (`Payload.BackoffDoubles`);
- a foreign domain with a not-found URL answers 404 for a deleted link that is still cached
  (`Coherence.CacheIsInvisible`, with `Coherence.ExceptionHappens` as a case);
- steps that come between a load and its store can leave a stale entry (`Coherence.LateStore`), and then a deleted link
  goes on answering (`Coherence.LateStoreShows`, with `Coherence.LateStoreHappens` as a case);
- a link request can report an error although its change was committed (`LinkStore.LinkStore.CreateLink` and the
  other writes), and then the cache is not invalidated (`RedirectCache.Handler.CreateLink` and the others).

## Model

| member | source | states |
|---|---|---|
| `Ledger.AddConsistent` | internal/store/store.go:908-928 | Writing a new event keeps every link counter equal to the number of counted rows and every rollup cell equal to the number of its rows exactly when the two clock readings fall on one UTC day |
| `Ledger.AddChanges` | internal/store/store.go:908-928 | A new event adds one row with its own fields and time, raises by one exactly the cell of its own fields on the UTC day of its time, and the counter of its link exactly if it counts |
| `Ledger.CellCounts` | internal/store/store.go:921-928 | A rollup cell counts exactly the rows with its link, country, device, browser, referrer, campaign, route and status on its UTC day |
| `Ledger.SingleConsistent` | internal/store/store.go:830-863 | One synchronous write keeps counters, rollups and rows consistent exactly when both clock readings agree on the day, or it writes nothing because the id is stored or the link refuses the click |
| `Drift.BatchConsistent` | internal/store/store.go:866-906 | A committed batch keeps counters, rollups and rows consistent exactly when its writes put as many rows into every cell as they raise it; if no clock ran backwards, exactly when every event it wrote got both readings on one UTC day, as drifts never cancel out |
| `Ledger.MidnightDrift` | internal/store/store.go:909-924 | An event without a timestamp written across midnight makes the rollup disagree with the rows |
| `Ledger.PurgeConsistent` | internal/store/store.go:937-940 | Retention leaves counters and rollups equal to the counts over kept and purged rows together |
| `Ledger.PurgeTakesOldest` | internal/store/store.go:937-940 | Retention removes only rows from before the cutoff, at most 10000; if any such row stays, exactly 10000 that are not younger |
| `Ledger.PurgeReopensID` | internal/store/store.go:937-940 | A case of the next row: after its row is purged, a redelivered event is inserted and counted a second time |
| `LedgerLaws.BatchCountsOnce` | internal/store/store.go:866-906 | If every id has been counted at most once, a committed batch of any size keeps it so exactly when none of its events carries an id that is not stored but was purged |
| `LedgerLaws.SingleCountsOnce` | internal/store/store.go:830-863 | If every id has been counted at most once, a synchronous write keeps it so exactly when its id was never purged, is stored or empty, or the link refuses the click |
| `LedgerLaws.BatchRefinesSingle` | internal/store/store.go:866-906 | A committed batch leaves the tables that recording its events one by one, unlimited, would leave, all accepted |
| `LedgerLaws.BatchConcat` | internal/store/store.go:866-906 | A batch of two parts commits exactly when the parts commit one after the other, with the same tables and the sum of the counts |
| `LedgerLaws.GroupingIrrelevant` | internal/store/store.go:866-906 | Any regrouping of the events into consecutive batches gives the same tables and total |
| `LedgerLaws.InsertedCount` | internal/store/store.go:876-905 | The returned count is the number of distinct ids not stored before, plus the events without an id |
| `LedgerLaws.BatchRows` | internal/store/store.go:912-918 | For every row, a batch adds exactly one copy if its id is new and one per anonymous event |
| `LedgerLaws.BatchDeltas` | internal/store/store.go:884-903 | Counters and cells move by exactly the number of matching rows added |
| `LedgerLaws.BatchCommitsIff` | internal/store/store.go:884-896 | A batch commits exactly when every new event names a link that exists and, if it counts, is live and unlimited |
| `LedgerLaws.OrderIrrelevant` | internal/store/store.go:866-906 | Any permutation of a batch commits or fails alike and ends with the same rows, counters, cells and count |
| `ClickLimit.StepOnLimited` | internal/store/store.go:844-857 | One write or batch on a limited link: the counter rises by one exactly when a new event is accepted, and a refused event leaves the tables unchanged |
| `ClickLimit.CounterNeverPassesLimit` | internal/store/store.go:841-862 | Under any mix of single writes with the limit and batches, a live limited link never counts past its limit, and no stored id is lost |
| `ClickLimit.ExactlyLimitAccepted` | internal/store/store.go:841-862 | Of n new events aimed at a limited link exactly min(n, room) are accepted and counted |
| `ClickLimit.ReplayIsNoOp` | internal/store/store.go:841-843 | Replaying an accepted id is answered with success at any later time and changes nothing |
| `ClickStore.Database.Begin` | internal/store/database.go:58-67 | A transaction starts on a copy of the tables, or not at all; started transactions are counted |
| `ClickStore.Transaction.Commit` | internal/store/database.go:68-83 | A commit installs the work; a failed commit installed it or nothing; the transaction is finished either way |
| `ClickStore.Transaction.Rollback` | internal/store/database.go:84-93 | Rolling back leaves the tables alone and counts once, and not after a commit |
| `ClickStore.Transaction.InsertClick` | internal/store/store.go:908-919 | A stored id inserts nothing, a new one inserts its row |
| `ClickStore.Transaction.BumpLink` | internal/store/store.go:845-854 | The guarded update changes one counter by one, or nothing |
| `ClickStore.Transaction.IncrementClickRollup` | internal/store/store.go:921-928 | Without an error exactly one cell changed, by one: the one with the event's own link, country, device, browser, referrer, campaign, route and status, on the UTC day of the time used |
| `ClickStore.Store.RecordClick` | internal/store/store.go:830-863 | Without an error the tables and the answer are those of the single-write specification; an error occurs only if the database failed or the link is unknown, and leaves the tables as they were unless only the commit reply was lost; no transaction stays open |
| `ClickStore.Store.RecordClicks` | internal/store/store.go:866-906 | Without an error the tables and the count are those of the batch specification; an error occurs only if the database failed or the batch must abort, and leaves the tables as they were unless only the commit reply was lost; no transaction stays open |
| `Payload.MarshalDecode` | internal/clickqueue/clickqueue.go:56-67 | A published event decodes exactly if it is publishable, and then to itself but for the two scrubbed URLs |
| `Payload.ValidUUIDShape` | internal/clickqueue/worker.go:297-304 | The id check accepts exactly the 36-character hexadecimal form of section 4 of RFC 9562 |
| `Payload.MintedIDsAreValid` | internal/handlers/handlers.go:2086-2094 | Minted ids pass the worker's check and carry version 4 and the variant bits (section 5.4 of RFC 9562) |
| `Payload.MintedIDsKeepRandomness` | internal/handlers/handlers.go:2086-2094 | Two minted ids coincide only if all 122 random bits coincide |
| `Payload.RetryHeaderReadsBack` | internal/clickqueue/worker_rabbitmq.go:175-177 | A retry header written for an attempt below 2^31 reads back as that attempt |
| `Payload.HeaderReads` | internal/clickqueue/worker.go:306-333 | No header and one of another kind count as no retry, a number as itself unless it overflows int64 |
| `Payload.BackoffDoubles` | internal/clickqueue/worker_rabbitmq.go:174-178 | The delay is 250 ms times a power of two exactly up to attempt 36, where the duration overflows |
| `Payload.TotalBackoffBound` | internal/clickqueue/worker_rabbitmq.go:171-181 | The delays of the attempts 1 to n, n at most 36, add up to 250 * (2^n - 1) ms; what a run makes of it is WaitingRunsOut |
| `Pipeline.StepKeepsInv` | internal/clickqueue/worker.go:172-245 | Every step of publishers, broker, workers, fallback, retention and of whoever creates, limits or deletes links keeps queue copies faithful, headers in range, tables consistent and every id in at most one row |
| `Pipeline.RunKeepsInv` | internal/clickqueue/worker.go:82-245 | The invariant holds along every run |
| `Pipeline.StepKeepsHeld` | internal/clickqueue/worker.go:186-245 | No single step loses an event that is recorded, queued, dead-lettered or delivered and unsettled |
| `Pipeline.NoLoss` | internal/clickqueue/clickqueue.go:90-108 | Once held, an event is held in every later state of every run, and once recorded it stays recorded |
| `Pipeline.DrainedMeansRecorded` | internal/clickqueue/worker_rabbitmq.go:128-143 | When nothing circulates and nothing was dead-lettered, every held event is committed |
| `PipelineLaws.ExactlyOnce` | internal/clickqueue/worker.go:172-245 | In every run each link counter equals the number of distinct committed counted events of the link, each rollup cell the number of its distinct committed events, and no id has two rows, however many copies circulate |
| `PipelineLaws.StepPays` | internal/clickqueue/worker.go:199-245 | Each handling of a delivery uses up at least one unit of the retry potential, and each retry publish, confirmed or not, its delay; only new messages, and deliveries that were offered for retry and are offered again or put back, bring some in |
| `PipelineLaws.PotentialAlongRun` | internal/clickqueue/worker.go:199-245 | Along every run, what was charged and the remaining potential are bounded by the initial potential and what was brought in |
| `PipelineLaws.RetriesRunOut` | internal/clickqueue/worker.go:199-245 | Whatever the store does, and whether retry publishes are confirmed, fail, or fail and get through nevertheless, n published messages cause at most n * MaxRetries handlings, on top of what the messages queued at the start are good for, provided no delivery that was offered for retry is offered again or put back |
| `PipelineLaws.WaitingRunsOut` | internal/clickqueue/worker_rabbitmq.go:171-197 | Under the same condition, and with at most 37 retries, all retries together are delayed by at most 250 * (2^(MaxRetries - 1) - 1) ms a published message |
| `World.World.Receive` | internal/clickqueue/worker.go:138-168 | The select loop sees an arrival, a tick of an armed timer, a cancellation or the end |
| `World.World.RecordClicks` | internal/clickqueue/worker.go:172-187 | The batch is committed as a whole or the store fails, possibly after committing; the outcome is a step of the pipeline |
| `World.World.Ack` | internal/clickqueue/worker.go:188-194 | An acknowledgement needs a recorded event or a durable replacement, and settles one delivery |
| `World.World.Reject` | internal/clickqueue/worker.go:201-211 | A rejected delivery goes to the dead-letter queue and is settled |
| `World.World.Nack` | internal/clickqueue/worker.go:212-220 | A delivery that was not offered for retry goes back unchanged and is settled |
| `World.World.Retry` | internal/clickqueue/worker_rabbitmq.go:171-197 | Without an error the replacement with the next retry count is in the retry queue; with one it may be; a delivery is offered once, and the offer and its answer are logged |
| `RetryChannel.RabbitRetryPublisher.Retry` | internal/clickqueue/worker_rabbitmq.go:171-197 | A call publishes once, and if that went out waits once; it reads the oldest unread confirmation, and returns no error exactly if one arrives and is positive; a call that gives up leaves its own confirmation unread |
| `RetryChannel.NilMeansStored` | internal/clickqueue/worker_rabbitmq.go:185-196 | Whatever the broker does, no error means that this message is stored exactly when no positive confirmation of an earlier message is the next to be read |
| `RetryChannel.AnswersAreShifted` | internal/clickqueue/worker_rabbitmq.go:171-197 | After any calls of which t gave up, no error is what the broker said of the message sent t calls before |
| `RetryChannel.TruthfulAtFirst` | internal/clickqueue/worker_rabbitmq.go:171-197 | Until a call gives up, no error means that the message is stored |
| `RetryChannel.FalseReplacement` | internal/clickqueue/worker.go:235-240 | Acknowledging a delivery that was not replaced keeps its event held exactly if the tables, a queue or another unsettled delivery hold it |
| `RetryChannel.LateConfirmationLoses` | internal/clickqueue/worker.go:221-240 | It happens: after one timeout whose message was stored, the next retry is not stored and returns no error; with its delivery acknowledged nothing holds the event |
| `World.World.HandlingsBounded` | internal/clickqueue/worker.go:199-245 | Both bounds for a process that works through these calls, as long as the others keep the condition: its own steps leave `orderly` alone, and only `Others` can end it |
| `World.World.Accept` | internal/clickqueue/rabbitmq.go:141-147 | A message the broker accepted is held by the pipeline |
| `World.World.RecordClick` | internal/clickqueue/clickqueue.go:90-108 | An accepted synchronous write recorded the event; a refused one is new, counts, and is on a link that is deleted or at the limit given; if statement and answer got through, exactly such writes are refused and exactly new events of unknown links fail; each call and its answer is logged |
| `Worker.Worker.constructor` | internal/clickqueue/worker.go:61-75 | The batch size is the configured one if it is between 1 and 200, else 200; a flush interval or retry count that is not positive becomes 250 ms or 5; the batch is empty and every counter is zero |
| `Worker.Worker.FreshIsReady` | internal/clickqueue/worker.go:82-100 | A new worker of a process that has received nothing meets what Run asks for |
| `Worker.Worker.Run` | internal/clickqueue/worker.go:82-170 | Run ends without an error only when its channel closes or when nothing is left after a cancellation, and with one only at a settlement that went wrong; the store gets exactly the batches its inputs call for, when they do; every settled delivery got the settlement it deserves; without an error every received delivery was settled exactly once and all counters agree with what was received, asked, answered, dead-lettered, put back and rescheduled |
| `Worker.Worker.Drain` | internal/clickqueue/worker.go:152-167 | After cancellation what was handed over is still taken in, flushed and settled |
| `Worker.Worker.Accept` | internal/clickqueue/worker.go:117-136 | An invalid delivery is dead-lettered, a valid one joins the batch, which goes to the store at once when it is full; between inputs the timer is armed exactly when the batch is non-empty |
| `Worker.Worker.Flush` | internal/clickqueue/worker.go:108-116 | A flush empties and disarms the batch and settles all of it |
| `Worker.Worker.FlushBatch` | internal/clickqueue/worker.go:172-197 | One store call with the whole batch; then every delivery is settled as the store's answer demands |
| `Worker.Worker.AskStore` | internal/clickqueue/worker.go:172-197 | The batch is handed over once; an accepted one is counted as committed and duplicate, a refused one as a failure |
| `Worker.Worker.AckAll` | internal/clickqueue/worker.go:188-194 | A committed batch is acknowledged in order, each delivery once, and nothing else is done to it |
| `Worker.Worker.RetryBatch` | internal/clickqueue/worker.go:199-245 | Every delivery of a refused batch gets the settlement it deserves, and is counted once; with a retryer none is put back unchanged |
| `Worker.Worker.RetryOne` | internal/clickqueue/worker.go:200-243 | At its last attempt a delivery is dead-lettered without an offer; without a retryer it is put back; else exactly one offer with its retry count plus one is made, and it is acknowledged and counted as a requeue if the retryer took it, dead-lettered if not; nothing is done to other deliveries |
| `Fates.FatesSettle` | internal/clickqueue/worker.go:172-245 | Settling one delivery as it deserves keeps all others as they deserve: invalid ones dead-lettered, those of accepted batches acknowledged, those of refused ones dead-lettered at the last attempt, put back without a retryer, and else offered once |
| `Fates.RetryFate` | internal/clickqueue/worker.go:200-243 | That is the settlement a valid delivery of a refused batch deserves |
| `Publisher.Broker.Send` | internal/clickqueue/rabbitmq.go:141-147 | A send puts one more unread confirmation behind those of the channel; even a failed one may have reached the broker |
| `Publisher.Broker.Await` | internal/clickqueue/rabbitmq.go:148-165 | The next confirmation is the oldest unread one of the channel, and a positive one means that message was stored |
| `Publisher.RabbitMQPublisher.constructor` | internal/clickqueue/rabbitmq.go:70-94 | A new publisher has no connection, and every counter is zero |
| `Publisher.RabbitMQPublisher.EnsureChannel` | internal/clickqueue/rabbitmq.go:170-201 | At most one dial; it fails only if a broker call did, and then what was opened is closed again |
| `Publisher.RabbitMQPublisher.Reset` | internal/clickqueue/rabbitmq.go:232-242 | No connection and no channel stays open |
| `Publisher.RabbitMQPublisher.Transmit` | internal/clickqueue/rabbitmq.go:134-167 | At most two dials, two calls of send and one successful send; nothing is sent again once a confirmation is awaited; a nil error means the pipeline holds this message; without an expired context it gives up unsent only after two attempts went wrong |
| `Publisher.RabbitMQPublisher.AwaitOne` | internal/clickqueue/rabbitmq.go:148-165 | The one outstanding confirmation is read, or the connection is dropped |
| `Publisher.RabbitMQPublisher.Publish` | internal/clickqueue/rabbitmq.go:96-168 | A nil error means the pipeline holds the event, after at most two dials and two calls of send; it fails only if a broker call did, the event could not be encoded or the context expired; afterwards an open channel has no unread confirmation, dialled minus closed connections is one exactly if a connection is set, and attempts are failures plus positive confirmations |
| `Publisher.RabbitMQPublisher.Close` | internal/clickqueue/rabbitmq.go:244-258 | Closing leaves no connection open |
| `Publisher.Recorder.Record` | internal/clickqueue/clickqueue.go:90-108 | Limited links and a missing queue: the store is asked exactly once for this click and its answer is the answer, and neither publisher nor broker is touched; otherwise the event is published, and only if that fails the store is asked, for the same id; (true, nil) means the pipeline holds the event, (false, nil) that the store refuses it on a deleted link or at its limit |
| `Tracking.MintedIsPublishable` | internal/handlers/handlers.go:2073-2095 | Every event minted for a redirect of a stored link passes the worker's checks when it is delivered |
| `Tracking.RedirectsAreTrackable` | internal/handlers/handlers.go:1807-1827 | Every route and status a redirect or an expired link takes is one the worker accepts |
| `Tracking.Tracker.Track` | internal/handlers/handlers.go:2107-2116 | The event is minted with a fresh id and recorded once; (true, nil) means the pipeline holds it, (false, nil) that the store refuses it; no id stays held in memory |
| `Tracking.Tracker.Serve` | internal/handlers/handlers.go:1807-1827 | A visit gets the answer the redirect decision prescribes for the outcome of its tracking; the password form is not tracked, an expired visit is recorded as such without counting, every other one once as its route says; a counted click is held by the pipeline, a refused one refused by the store |
| `Server.RunServer` | cmd/server/main.go:75-166 | From its start the web server serves one visit after the other as above, all of them unless a generated id is already in use, with or without the queue, while all others do as they like; every counted click stays held |
| `Server.RunAnalyticsWorker` | cmd/server/main.go:53-73 | The worker with its defaults starts on nothing and runs as above; none is ever put back unchanged |
| `Server.SoundAfter` | cmd/server/main.go:53-166 | Whatever run follows, every visit keeps its answer and every counted click is held, and recorded once nothing is queued, unsettled or dead-lettered; every counter and cell is the number of distinct committed events |
| `Server.Deploy` | cmd/server/main.go:53-166 | From empty queues and tables without clicks, a web server followed by a worker reaches such a state, whatever the store, the broker and all others do; as long as the others offer deliveries once, each published message is good for five handlings and 3.75 s of delays |
| `Links.ValidateLink` | internal/store/store.go:1330-1372 | Accepts exactly the well-formed links: no permanent code with a dynamic feature, distinct known countries, absolute HTTP URLs, a positive limit |
| `Links.ValidateGeo` | internal/store/store.go:1359-1369 | Accepts exactly country lists of known, pairwise distinct countries with HTTP URLs |
| `Fields.ValidReads` | internal/store/store.go:1330-1372 | What well formed means, field by field: known visibility, absolute HTTP URLs, one of four codes, a permanent one only without any dynamic feature, a positive limit, distinct known countries, at most 20 tags |
| `Links.ApplyLinkPayload` | internal/handlers/handlers.go:1072-1159 | A request is accepted exactly if its URLs agree, its visibility and time are known, its password has eight bytes and a new link has a URL, unless hashing fails; it replaces exactly the fields it names, and protection follows the password fields |
| `Text.TrimReads` | internal/handlers/handlers.go:1072-1100 | Trimming takes exactly the spaces off both ends |
| `Links.EditedIs` | internal/handlers/handlers.go:1072-1159 | What an accepted request leaves is one function of the link and the request, whatever the password hashes to; there is a hash exactly if there is a password, and a changed password decides protection |
| `Fields.EditReads` | internal/handlers/handlers.go:1072-1159 | Every field of an edited link is that of the request, trimmed, if the request names it, and else the link's own |
| `Fields.ScopesRead` | internal/store/store.go:1141-1170 | A superadmin manages everything, a tenant exactly its own links, a customer exactly their own; a customer also sees what their department shares |
| `LinkStore.SelectsAll` | internal/store/store.go:624-662 | The bulk WHERE clause matches as many rows as ids were given exactly when the ids are distinct and each names a live manageable row |
| `LinkStore.UpdatedKeepsOK` | internal/store/store.go:683-706 | After a bulk update no stored link combines a permanent code with a dynamic feature, protection still means a stored hash, and slugs stay unique |
| `Fields.DeletedReads` | internal/store/store.go:787-828 | Deleting marks exactly the rows named and keeps what they held; a deleted link is neither seen nor managed |
| `Fields.OverwriteReads` | internal/store/store.go:683-706 | An update stores every field it was given, keeps id, slug, owner and clicks, and the password unless it changed |
| `Fields.InsertReads` | internal/store/store.go:425-443 | An insert stores every field it was given, for the user, without clicks, protected exactly by a hash |
| `Fields.FilledReads` | internal/store/store.go:409-421 | Creation fills in code 302 and private visibility, and nothing else |
| `LinkStore.ReadsStored` | internal/store/store.go:1219-1260 | Links read by ids are the stored ones, always for distinct ids, and in general exactly when no repeated id has country targets |
| `LinkStore.Hydrate` | internal/store/store.go:1219-1260 | Country targets are read in chunks of 500; each chunk that names an id appends its targets at the last position of the id |
| `LinkStore.AppendTargets` | internal/store/store.go:1236-1251 | Whatever order a statement returns ids in, its targets are appended once at the last position of each id it names, and nowhere else |
| `LinkStore.LinkStore.CreateLink` | internal/store/store.go:409-445 | The insert commits exactly for a well-formed link whose given or generated slug is valid and free, unless a statement fails, and then stores the given link with its defaults under a fresh id; uncommitted, nothing changes; the link is returned only if committed and, unless the reply or reading it back fails, always then |
| `LinkStore.LinkStore.CreateLinksBulk` | internal/store/store.go:448-508 | Unless a statement fails, an import commits exactly if every row with its defaults is well formed, and the given and generated slugs are valid, free and distinct; then each row is stored under a fresh id, else nothing changes; a lost reply or a failing read may report an error with all stored |
| `LinkStore.InsertAll` | internal/store/store.go:484-502 | The inserts of one import add exactly one fresh row each and keep slugs unique; unless a statement fails they succeed exactly if no slug is taken |
| `LinkStore.FillIn` | internal/store/store.go:452-473 | An import passes validation exactly if every row with its defaults is well formed, and its given or generated slug is valid and shared with no other row |
| `LinkStore.LinkStore.UpdateLink` | internal/store/store.go:726-770 | The update commits exactly for a manageable live link and a well-formed result, unless a statement fails, and then overwrites exactly that link; uncommitted, nothing changes; the link is returned only if committed and, unless the reply or reading it back fails, always then |
| `LinkStore.LinkStore.UpdateLinksBulk` | internal/store/store.go:624-711 | The transaction commits exactly when all links are well formed and the ids distinct, live and manageable, unless a statement fails; uncommitted, nothing changes; a lost reply or a failing read may report an error with all changed |
| `LinkStore.LinkStore.DeleteLink` | internal/store/store.go:787-799 | Deletes exactly a live link the user manages; only a lost reply reports an error with the link deleted |
| `LinkStore.LinkStore.DeleteLinksBulk` | internal/store/store.go:801-828 | Commits exactly when the ids are distinct, live and manageable, unless a statement fails; uncommitted, nothing changes; only a lost reply reports an error with the links deleted |
| `LinkStore.LinkStore.LinksByIDs` | internal/store/store.go:571-615 | Reading in chunks returns one link per id in the order asked for, with its country targets as the chunked hydration yields them, or nothing if one is missing or not visible |
| `LinkStore.LinkStore.LinkByID` | internal/store/store.go:772-785 | Returns exactly a live link the user may see, unless the statement fails |
| `LinkAPI.LinkAPI.Create` | internal/handlers/handlers.go:633-656 | Unless a statement or hashing fails, a request is committed exactly if it is acceptable and what it makes of a new link is well formed with a valid free slug; that is what is stored; no stored link ever combines a permanent code with a dynamic feature; an error leaves the store alone unless the link was committed |
| `LinkAPI.LinkAPI.Edit` | internal/handlers/handlers.go:706-737 | Unless a statement or hashing fails, a request is committed exactly if it names no slug, the user manages the live link, and the request is acceptable with a well-formed result; then that one link becomes what the request makes of it; an error leaves the store alone unless the change was committed; the same invariant is kept |
| `LinkAPI.LinkAPI.EditAll` | internal/handlers/handlers.go:1345-1440 | Unless a statement or hashing fails, the request is committed exactly for 1 to 500 distinct positive ids of links that it may each change; then each is edited from its current state, else none; the same invariant is kept |
| `LinkAPI.LinkAPI.Import` | internal/handlers/handlers.go:1327-1332 | Unless a statement fails, an import is committed exactly if all rows are valid with their defaults and slugs; then all are stored, else none; the same invariant is kept |
| `LinkAPI.LinkAPI.RemoveAll` | internal/handlers/handlers.go:1354-1388 | Unless a statement fails, exactly 1 to 500 distinct positive ids of live manageable links are deleted, all or none |
| `LinkAPI.AreUniqueIDs` | internal/handlers/handlers.go:1364-1371 | The handler accepts exactly lists of distinct positive ids |
| `Redirect.MergeTargetQuery` | internal/handlers/handlers.go:1997-2018 | Whatever order the maps are ranged over in, a key takes the visitor's values if queries are forwarded, else the link's UTM field, else the destination's own values |
| `Redirect.SetUTM` | internal/handlers/handlers.go:2003-2007 | Exactly the non-empty UTM fields of the link are set |
| `Redirect.Forward` | internal/handlers/handlers.go:2008-2015 | Exactly the inbound keys are replaced by the inbound values |
| `Redirect.PermanentIsConstant` | internal/handlers/handlers.go:1807-1827 | Whatever country, user agent, query and time, a visit to a stored 301 or 308 link records the same target, and leads there once its click is counted; a refused click gets the expired answer, a failed one an error (sections 15.4.2 and 15.4.9 of RFC 9110) |
| `Visits.VisitLeads` | internal/handlers/handlers.go:1978-1996 | A visit that nothing stops leads to the first country target that matches, else to the iOS target on an iPhone, iPad or iPod if there is one, else to the Android target on Android if there is one, else to the default target, and is recorded under that route |
| `Visits.VisitStops` | internal/handlers/handlers.go:1799-1806 | A password not given gives its form and no event; a link at or after its time, or at its click limit, gives the expired answer and an event of its own; neither leads to a target |
| `Visits.EventReads` | internal/handlers/handlers.go:2073-2084 | Every field of an event comes from the field of the link, the request, the client traits or the target's query that it is named after |
| `Visits.MergeReads` | internal/handlers/handlers.go:1997-2018 | A merged query holds the visitor's values of a forwarded key, else the link's own source, medium, campaign, term or content under the UTM key of that name, else what the target had |
| `Hosts.CleanedIsPlain` | internal/store/store.go:1428-1441 | A cleaned domain that passes the pattern is a plain host name |
| `Hosts.PlainStays` | internal/redirectcache/cache.go:86-97 | Plain host names are left alone by normalizing and by cleaning |
| `Hosts.NormalForms` | internal/redirectcache/cache.go:86-97 | In any letter case, with a port or a final dot, a host name has the same normal form |
| `Hosts.CleanForms` | internal/store/store.go:1430-1435 | In any letter case, with a scheme and a path, a host name is cleaned to itself |
| `Hosts.KeyInjective` | internal/redirectcache/cache.go:82-84 | Cache keys of plain host names tell hosts and slugs apart, whatever the slug contains |
| `Hosts.EmptyHostKey` | internal/redirectcache/cache.go:139-147 | The key a redirect without a host header is cached under is no plain host's key |
| `Coherence.CacheKeepsVisits` | internal/redirectcache/cache.go:54-80 | A cached copy gives every visit the same answer and event as the link, whatever its click count |
| `Coherence.Cacheable` | internal/redirectcache/cache.go:54-57 | A link may be cached exactly if neither a password nor a click limit guards it |
| `Coherence.RespondReads` | internal/handlers/handlers.go:1787-1798 | Without a link a domain answers with its not-found URL or 404; a domain of another tenant gives 404; everywhere else the link answers |
| `Coherence.StepKeepsInv` | internal/handlers/handlers.go:1830-1869 | Resolves, evictions, unreadable entries, link writes and domain writes with their invalidations keep every entry that answers equal to its live link |
| `Coherence.RunKeepsInv` | internal/handlers/handlers.go:1787-1869 | The same along every run |
| `Coherence.CacheIsInvisible` | internal/handlers/handlers.go:1787-1827 | In every run a redirect through the cache answers and records exactly as a direct load, except that a foreign domain with a not-found URL answers 404 for a deleted link that is still cached |
| `Coherence.ExceptionHappens` | internal/handlers/handlers.go:1787-1806 | The exception is reached: a run from the empty site ends with a deleted link of another tenant answering 404 on a domain that has a not-found URL |
| `Coherence.LateStore` | internal/redirectcache/cache.go:125-133 | If any steps come between the load and the store of a link, on any host, the site stays coherent exactly when the host does not answer for the link, or the link is still live, nothing cached of it changed, and the host is still served |
| `Coherence.LateStoreShows` | internal/redirectcache/cache.go:125-133 | If the link was deleted in between, every visit that hits the stale entry, on a host that answers for the link, is answered as by the deleted link, and never as by a direct load |
| `Coherence.LateStoreHappens` | internal/redirectcache/cache.go:125-133 | It happens: from the empty site, one link is created and deleted between the load and the store, and the base host answers as the deleted link where a direct load gives 404 |
| `Coherence.InvalidationReaches` | internal/redirectcache/cache.go:139-165 | Invalidation reaches an entry exactly when the host name it was cached under normalizes to an invalidated host |
| `RedirectCache.Resolver.Resolve` | internal/redirectcache/cache.go:108-137 | A readable entry is returned and nothing is written; otherwise the loaded link is returned and cached only if it may be; if no cache call fails, a readable entry is always used and a cacheable link always stored; a miss is counted only if nothing readable is there, and failing to read a readable entry counts an error |
| `RedirectCache.Resolver.Invalidate` | internal/redirectcache/cache.go:139-165 | Without an error exactly the hosts' keys are gone; each key is counted once, as an error or as an invalidation, and the errors are the deletes that failed |
| `RedirectCache.PlainTargets` | internal/redirectcache/cache.go:142-152 | For plain host names the keys deleted are the keys of the hosts |
| `RedirectCache.Handler.RedirectHosts` | internal/handlers/handlers.go:1830-1838 | The base host and exactly the active domains of the tenant |
| `RedirectCache.Handler.InvalidateRedirect` | internal/handlers/handlers.go:1840-1847 | It fails exactly if a call did; without an error the link is gone from the cache on all its hosts |
| `RedirectCache.Handler.InvalidateDomain` | internal/handlers/handlers.go:1855-1869 | It fails exactly if a call did; without an error all live links of the tenant are gone from the cache on the domain |
| `RedirectCache.Handler.CreateLink` | internal/handlers/handlers.go:644-649 | Creating and invalidating is one step of the site, unless the commit's answer, the read after it or an invalidation was lost; then the link is stored and the cache may still answer as before; if no call fails, it happens exactly if the slug is free |
| `RedirectCache.Handler.ChangeLink` | internal/handlers/handlers.go:725-730 | Changing and invalidating is one step of the site, unless the commit's answer, the read after it or an invalidation was lost; then the change is stored and the cache may still answer as before; if no call fails, it happens exactly if the link is live |
| `RedirectCache.Handler.DeleteLink` | internal/handlers/handlers.go:746-750 | Deleting and invalidating is one step of the site, unless the answer or an invalidation was lost; then the link is deleted and the cache may still answer as before; if no call fails, it happens exactly if the link is live |
| `RedirectCache.Handler.CreateDomain` | internal/store/store.go:1437-1454 | A new domain has a plain name that was free, is pending and without a not-found URL, and the site stays coherent; if no call fails, every valid free name is added |
| `RedirectCache.Handler.UpdateDomain` | internal/handlers/handlers.go:2299-2316 | Changing the not-found URL and invalidating is one step of the site, unless the answer or an invalidation was lost; if no call fails, it happens exactly if the domain exists |
| `RedirectCache.Handler.SetVerified` | internal/handlers/handlers.go:2286-2291 | Activating or deactivating a domain and invalidating is one step of the site, unless the answer or an invalidation was lost; if no call fails, it happens exactly if the domain exists |
| `RedirectCache.Handler.DeleteDomain` | internal/handlers/handlers.go:2323-2337 | Deleting a domain and invalidating is one step of the site, unless the answer or an invalidation was lost; if no call fails, it happens exactly if the domain exists |
| `RedirectCache.Handler.RedirectSlug` | internal/handlers/handlers.go:1756-1828 | The base host, and a request without a host header, is always served; a custom domain exactly if it is registered and active and its daily check was not due, or passed and was stored; a failed check deactivates it; every other host gets 404 and no record. A served host is answered and recorded from the entry under its name, which is used whenever it is readable and no call fails, else from a direct load; on the base host and on regular host names that is what a direct load gives, with the one exception of a foreign domain; there and without a host header the site stays coherent |
| `PeakCounters.AccessKeepsInv` | internal/store/database.go:163-166 | Every atomic access of the loop keeps the value between the first value and the highest candidate, and never lowers it |
| `PeakCounters.MaximumReached` | internal/store/database.go:163-166 | However threads interleave, once all are through the value is the maximum of the first value and all candidates |
| `PeakCounters.FailureMeansProgress` | internal/clickqueue/clickqueue.go:120-126 | An exchange fails only if the value grew since the load |
| `PeakCounters.AtomicUint64.UpdateAtomicMax` | internal/store/database.go:163-166 | The loop ends with the value at least the candidate, while any other threads run |
| `PeakCounters.EventKeepsOK` | internal/handlers/request_metrics.go:20-29 | Entering, counting and leaving keep the gauge equal to the requests being served |
| `PeakCounters.PeakIsHighWater` | internal/handlers/request_metrics.go:20-29 | Below 2^64 requests the gauge never wraps, and whenever no loop runs the recorded maximum is the true peak |
| `Limiter.FilterInPlace` | internal/handlers/handlers.go:1929-1937 | In-place filtering leaves exactly the attempts after the cutoff, in order, at the front of the same array |
| `Limiter.PruneKeys` | internal/handlers/handlers.go:1944-1957 | Pruning keeps exactly the recent attempts of every key and drops keys without any |
| `Limiter.FiveAtMost` | internal/handlers/handlers.go:1921-1938 | No stretch shorter than 15 minutes holds more than five recorded failures of a key |
| `Limiter.FailureKeepsSpread` | internal/handlers/handlers.go:1891-1909 | A failure let through by a gate that counted fewer than five keeps any six failures in a row at least 15 minutes apart |
| `Limiter.SinceTwice` | internal/handlers/handlers.go:1929-1937 | Filtering early loses nothing a later filter would keep |
| `Limiter.Limiter.Prune` | internal/handlers/handlers.go:1940-1958 | Pruning never changes what any key's last 15 minutes hold |
| `Limiter.Limiter.TooManyAttempts` | internal/handlers/handlers.go:1921-1938 | Blocked exactly if the complete history since the last clear has five failures in the last 15 minutes, or the map is full and the key has none; the map never exceeds 100000 keys |
| `Limiter.Limiter.AddAttempt` | internal/handlers/handlers.go:1960-1964 | Exactly one failure is added to the history of the key |
| `Limiter.Limiter.ClearAttempts` | internal/handlers/handlers.go:1965-1969 | The history of the key ends |
| `Limiter.Limiter.Gate` | internal/handlers/handlers.go:1891-1909 | A submitted password is blocked, clears the key, or is recorded as one failure; it is blocked only with five recent failures, or at the cap for a key that is not in the map |
| `Breakdown.RankedUnique` | internal/store/report.go:309-314 | A map has one ranked listing, so the order it is ranged over in does not matter |
| `Breakdown.RankedReads` | internal/store/report.go:309-314 | Ranked points fall in clicks, and equal clicks rise in byte order of their keys |
| `Breakdown.BreakdownMeaning` | internal/store/report.go:304-323 | A breakdown has at most the limit of points, keeps the total, and shows the keys that rank highest: none shown has fewer clicks than one folded |
| `Breakdown.ListingsAgree` | internal/store/report.go:305-308 | All listings of a map have the same length and total |
| `Breakdown.Sort` | internal/store/report.go:309-314 | The points are put in rank order, each kept |
| `Breakdown.SortedPoints` | internal/store/report.go:304-323 | The result is the folded ranked listing of the counts |
| `Report.BumpRow` | internal/store/report.go:200-229 | A row counts once in route and status, and a successful redirect once in traffic and every client dimension |
| `Report.CountIsSize` | internal/store/report.go:200-229 | A count is the number of rows its filter admits |
| `Report.KeysRead` | internal/store/report.go:200-229 | Each breakdown counts a row under that row's own field, trimmed, or as unknown; client breakdowns and traffic count successful redirects, routes and statuses all rows |
| `Report.BuildReport` | internal/store/report.go:162-237 | Summary, days and breakdowns are the counts of the rows they stand for; human and bot clicks add up to the period; the peak is the earliest day with the most clicks |
| `Report.DaysConserve` | internal/store/report.go:203-211 | The days add up to the period's clicks exactly when every counted click falls on a listed day |
| `Report.BreakdownsConserve` | internal/store/report.go:227-237 | Client and traffic breakdowns add up to the period's clicks, routes and statuses to all rows |
| `Report.PeakStep` | internal/store/report.go:230-237 | Taking a day only if it is strictly larger keeps the earliest peak |
| `Pagination.ListLinksPage` | internal/store/store.go:514-528 | A page holds the newest rows below the cursor, and the next cursor is zero only if no row is left |
| `Pagination.ListClicksPage` | internal/store/store.go:1010-1036 | The same under the rule that a full page points on |
| `Pagination.Follow` | internal/handlers/handlers.go:1173-1198 | Following the cursor ends, reads ids in strictly descending order, reads every row visible throughout, and does not see rows that arrive above all others |
| `Rebind.Rebind` | internal/store/database.go:116-148 | The loop with its lookahead for doubled quotes yields the query with its k-th placeholder as $k and all else as it was, quotes being read by a plain toggle |
| `Rebind.ReboundIsFinal` | internal/store/database.go:116-148 | Rebinding keeps every quotation and leaves no placeholder |
| `Rebind.RebindTwice` | internal/store/database.go:116-148 | Rebinding twice is rebinding once |
| `Rebind.AddLinkViewScope` | internal/store/store.go:1141-1159 | Placeholders keep matching the arguments one to one |
| `Rebind.AddLinkManageScope` | internal/store/store.go:1161-1170 | Placeholders keep matching the arguments one to one |
| `Rebind.PlaceholdersMatch` | internal/store/store.go:1310-1315 | A list of placeholders matches exactly the arguments it is for, none if the list is empty |
| `Rebind.LinksByIDsQuery` | internal/store/store.go:581-590 | The chunk statement has one placeholder per argument |

## Left out

- Pipeline: the steps of the broker, the database and each process are atomic; a transaction's statements are in ClickStore, but two transactions do not interleave, which PostgreSQL's row locks and the unique index on event ids stand for.
- Pipeline.StepKeepsInv: retention closes an id only when no copy of it circulates; what a redelivery after that does is `LedgerLaws.BatchCountsOnce`.
- Tracking.Tracker.Track: the random id is taken to be new; a collision of two random ids is not modelled, and Server.RunServer is followed up to one.
- Server.RunServer: requests are served one at a time, each with the link it found; other servers and workers are the steps of others. Configuration, the start of HTTP, and connecting the worker are left out.
- World.World.Retry: takes a nil error to mean a durable replacement, as RetryPublisher promises; runs in which the confirmations of rabbitRetryPublisher are out of step after a timeout are those of RetryChannel, and not steps of the pipeline.
- Worker.Worker.Run: runs are finite, bounded by a budget of inputs; delivery functions that are nil, which the bridge never produces, are left out.
- Counters of the worker, publisher and store are natural numbers, without wrap-around at 2^64, except in PeakCounters; durations, lags and log lines are left out.
- Publisher.RabbitMQPublisher.Publish: the observer is always present, and the publisher lock is the atomicity of the call.
- JSON, URL, RFC 3339, bcrypt, case folding and substring search are functions or free outcomes; a queue body is one JSON object with known fields or nothing.
- Event ids are compared as strings, while the database compares them as UUIDs in either case; minted ids are lower case.
- Hosts: bracketed IPv6 literals and letters beyond ASCII are left out; NormalizeHostname is not idempotent on all names.
- A redirect host name that only cleaning turns into the domain (`Coherence.InvalidationReaches`) is outside the transparency theorem, as is a domain name that changes its tenant.
- Coherence.CacheIsInvisible: invalidations are taken to succeed; a failed delete or alias lookup is reported by the handlers' methods as lost and then nothing is claimed.
- RedirectCache.Handler.RedirectSlug: without a host header the redirect is cached under a key no invalidation reaches, so its answers are those of that entry, not of a direct load. The syntax of slugs and reserved paths, the port of the host header, and the counting of the click, which is a step of Coherence and the subject of the pipeline, are left out.
- RedirectCache.Resolver.Resolve: a missing resolver or cache, where every redirect is a direct load, is left out.
- LinkStore: country targets are read back sorted by country and columns have no length limits; here the order given is kept.
- LinkAPI: two requests that read and write the same link at the same time are left out.
- Report: the average, the previous period, unique visitors, top links and recent events are separate queries; calendar days are an abstract function of time, so daylight saving is left out.
- Breakdown.SortedPoints: a stored key may itself be "Other", so that key can occur twice.
- Limiter: a slice is a value between calls, so sharing of backing arrays between keys, which Go does not do here, is left out; gates are sequential.
- Rebind: that the WHERE clauses mean what Manageable and Visible say is not proved from the SQL text.
- Pages, QR codes, PDF, CSV text, tokens, SSO, roles, audit log and the web interface are left out.
