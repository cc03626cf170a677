# Verification of the online cinema's protocols

The repository is the back end of an online cinema. This project models the parts of it that
hold a protocol or an invariant, and proves what they promise, in Dafny 4.11. Check it with
`dafny verify dfyconfig.toml`.

Each protocol is a state machine over its steps, and the theorems are about every run of the
machine. In the delivery pipeline, the settings cache, the ETL and the sessions a step is one
database statement, one Redis command or transaction, one Kafka publication or one answered
call, and crashes and other clients can fall between any two. Coarser steps are: in the
sessions, reading the ids and the hashes of a user, and reading and deleting one session; in the
code services, a whole call, which ends at any of its cuts (`OverlappingSends` takes single
commands); in the loader, the processing of one batch, which a cancellation can cut. Beside each machine stands a class with the source's
fields and methods, whose contracts tie every method to the machine and say, without it, what the
method leaves behind; the loops and early returns are those of the source.

- **Notification delivery.** `Delivery` is the worker's protocol for one message, `Fanout` the
  way from the API and the scheduler to one message per recipient, `Pipeline` joins the two.
  `FanoutProofs`, `TriggerUpdates`, `UpsertSafety` and `LostUpdates` hold the proofs;
  `DeliveryOutcomes` and `FanoutOutcomes` say case by case what a handling leaves behind;
  `ReadyConsumers`, `Schedulers` and `PendingConsumers` are the code; `Keys` the deduplication
  keys.
- **Settings cache.** `SettingsCache`: readers, lock, waiters, failures and invalidations;
  `SettingsAnswers`: every conversation of a reader.
- **Mailings and audiences.** `Subscriptions` and `SubscriptionServices` keep one subscription
  per user; `Audiences` are the two queries on users; `AdminMailings` divides a mailing by
  time zone.
- **Movies ETL.** `Keyset` is the pagination, `Etl`, `EtlProofs` and `EtlConvergence` the three
  cursors of the film index, `EtlCycles` what one cycle leaves behind, `NamedIndexes` the genre
  and person indexes; `Orchestrator`, `NamedPipelines` and `Transformer` the code,
  `EtlDocuments` the link between the two.
- **One-time codes.** `Codes` specifies the three services on one Redis (`RedisStore`);
  `SendLimits`, `RealSends` and `CodeHistory` hold the proofs, `CodeAnswers` says which answer
  every call gets, `CodeServices` is the code; `OverlappingSends` lets the commands of several
  calls for one destination interleave.
- **Sessions.** `Sessions` and `SessionProofs`; `SessionServices` is the code.
- **Loader.** `Loader`, `LoaderProofs`, `LoaderService`: the ClickHouse buffer.
- **E-mail sender.** `EmailSenders`: throttle and circuit breaker.

Where a promise does not hold of the code, the project proves exactly when it does, and in most
cases gives a concrete run in which it does not:

- A trigger update is sure to be announced if and only if, when it is made, nothing else of the
  trigger is under way (`UpsertSafety.UpsertExactly`). One made between the publication of the
  update before and the handler's read, or between that read and the mark, can be lost for good
  (`LostUpdates.LostBeforeRead`, `LostUpdates.LostAfterRead`).
- A code that is delivered and not recorded counts for neither cooldown nor limit
  (`RealSends.CooldownExactly`, `RealSends.UnrecordedUnlimited`), calls that overlap pass the
  limits together (`OverlappingSends.OverlapCapped`, `OverlappingSends.OverlapUnlimited`), and a
  send counter can be left without expiry even without a crash, and then blocks its number for ever
  (`SendLimits.ExpiryLostExactly`, `SendLimits.ExpiryCanBeLost`).
- A genre or person without films stops its film cursor (`EtlConvergence.CatchesUpExactlyWhen`,
  `EtlConvergence.OrphanGenreBlocks`), and a new link reaches the person's document only if the
  person is still awaited or fetched again after a cut (`NamedIndexes.ReachesExactly`,
  `NamedIndexes.PersonStaysBehind`).
- Two logins from one device can leave two sessions on it (`SessionProofs.LoginSafeExactly`,
  `SessionProofs.LoginsCanOverlap`), a refresh that ends after its session was revoked brings
  back a session outside every index, and a login during a revocation survives it
  (`SessionProofs.RefreshSafeExactly`, `SessionProofs.RefreshCanRevive`,
  `SessionProofs.RevokedExactly`).
- A lock holder that outlives its lock frees the lock of the next
  (`SettingsCache.NewcomerEntersExactly`, `SettingsCache.LateRelease`).
- Overlapping assignments can give a user two subscriptions (`Subscriptions.AssignSafeExactly`,
  `Subscriptions.OverlapGivesTwo`).
- Stopping the loader leaves what exceeds one batch per table and what arrives meanwhile, and a
  stop that times out loses what was extracted (`LoaderProofs.StopLeavesExactly`,
  `LoaderProofs.CancelLoses`).

Assumptions shared by the modules: time is a number (seconds in Redis, real seconds in the
e-mail sender); identifiers drawn by the services are fresh; a failed insert, bulk request or
delivery has no effect; messages of one Kafka partition are handled one after the other.

`LoginCompletionService.create_session` passes user agent and address in each other's place
(auth/src/services/login_completion.py:69-76), always so; a device is the pair as passed.

Two places where the code and its comments differ, and the code is followed: `get_email` says
that its errors are retried (notifications/worker/contacts.py:10-11), but the consumer
dead-letters them (notifications/worker/consumer.py:189-204); `get_notification_settings`
mentions defaults when auth-service is down (notifications/worker/notification_settings.py:143),
but raises an error that is retried (lines 129-131).

## Model

| member | source | states |
|---|---|---|
| `Keys.TextIdentifies` | notifications/worker/consumer.py:305-312 | Different recipients, mailings, trigger updates and personal notifications never share the text of a deduplication key |
| `Delivery.EffectivelyOnce` | notifications/worker/consumer.py:153-242 | On every run of publications, calls, crashes and redeliveries: the real sends of a key are exactly its sent row, plus one in flight, plus one per cut between a send and its mark; so at most 1 + cuts |
| `Delivery.NoSilentLoss` | notifications/worker/consumer.py:101-242 | Every acknowledged well-formed message has a row in sent, skipped or failed, and if its handling caught an exception it is in the dead-letter queue with that exception |
| `Delivery.SettledForever` | notifications/worker/consumer.py:225-229 | Sent and skipped are absorbing for the row and for the number of sends, over every continuation of every run |
| `Delivery.SendsAreAuthorised` | notifications/worker/consumer.py:119-150 | A key is sent only by the handling of a message with that key, with an active template, a registered sender, and consent unless the template is mandatory |
| `ReadyConsumers.SixCallsSuffice` | notifications/worker/consumer.py:210-242 | A handling that is not cut ends after at most six answered calls, from any point |
| `DeliveryOutcomes.HandledExactly` | notifications/worker/consumer.py:101-242 | Every uncut handling of a message, case by case on table, sends and dead letters: settled rows stay; a missing or inactive template, an unknown channel and a missing contact fail the row with their error; settings that do not want the channel skip it, unless the template is mandatory; an exception fails it and dead-letters the message; everything else is sent once and marked |
| `DeliveryOutcomes.DeliverableIsSent` | notifications/worker/consumer.py:153-207 | A message that may be rendered, to a reachable recipient and without an exception, is sent once, to the user for push, else the address in the message, else the contact, and its row says so without an error |
| `ReadyConsumers.WorksRun` | notifications/worker/consumer.py:210-242 | Uninterrupted handling of a head message is a run of the delivery machine that touches only its own partition and the store |
| `ReadyConsumers.ReadyConsumer.GetOrCreate` | notifications/worker/repositories/notifications.py:12-52 | Inserts a pending row for a new key; returns an existing one unchanged |
| `ReadyConsumers.ReadyConsumer.CheckDeliverable` | notifications/worker/consumer.py:101-150 | Marks failed or skipped, or clears the message, in the order of checks of the machine |
| `ReadyConsumers.ReadyConsumer.RenderAndSend` | notifications/worker/consumer.py:153-207 | Render, address, send, mark or dead letter, cut after any call; uncut, an exception fails the row and dead-letters the message, a missing contact fails the row, and every other message is sent once to the user, the address in the message or the contact, and marked sent |
| `ReadyConsumers.ReadyConsumer.ProcessReadyMessage` | notifications/worker/consumer.py:210-242 | The handler, cut after any call, leaves the state of the machine after those calls; uncut, it leaves the outcome of `DeliveryOutcomes.HandledExactly`, and a malformed message leaves everything as it was |
| `ReadyConsumers.ReadyConsumer.Handle` | notifications/worker/consumer.py:245-262 | Acknowledges when the handler returns, which it does within six calls, and then the offset of this partition alone moves by one; with six answers the tables are those of `DeliveryOutcomes.HandledExactly`; a cut leaves the message for redelivery |
| `FanoutProofs.PublishedBeforeMarked` | notifications/scheduler/main.py:91-117 | In every reachable state a mailing that is no longer `scheduled` has its own message in the pending topic |
| `FanoutProofs.SentMeansFannedOut` | notifications/worker/consumer.py:274-320 | A mailing carries its sent time only if every user of one resolved audience has that mailing's message: its template, its payload, the channel read with the audience, and key mailing:user |
| `FanoutProofs.MailingContent` | notifications/worker/consumer.py:305-315 | Every bulk message under a mailing's key carries the mailing's template and payload |
| `FanoutProofs.NoLostUpdate` | notifications/worker/consumer.py:332-386 | A trigger that is no longer due has had its exact current update fanned out with its own template and payload, unless the mark of another update or of another content fell over it |
| `FanoutProofs.RunKeeps` | notifications/scheduler/main.py:61-117 | The invariant behind these, over every run of API, scheduler and workers with crashes anywhere |
| `UpsertSafety.UpsertExactly` | notifications/src/repositories/notification_triggers.py:19-51 | At every upsert of every run: each continuation without another upsert that comes to rest (trigger not due, nothing of it under way) has fanned out the update with its own template and payload, if and only if at the moment of the upsert the scheduler's queue and the unacknowledged messages hold nothing of the trigger but this very content and no handler has read its row |
| `UpsertSafety.CanRest` | notifications/scheduler/main.py:61-88 | From every reachable state some continuation without an upsert brings the trigger to rest, so the statement above is never empty |
| `UpsertSafety.MarkDecides` | notifications/worker/repositories/notification_triggers.py:28-39 | After a mark the trigger is not due whatever the handler had read; every continuation that comes to rest has the current update if and only if it was fanned out when the mark fell, and it was if the handler had read it after a message with its content |
| `TriggerUpdates.NoUpdateLost` | notifications/worker/consumer.py:342-383 | If the last upsert of a trigger was safe in this sense, then whenever the trigger is not due its current update has been fanned out with its own content, and no bulk message under that update's keys carries anything else |
| `LostUpdates.LostAfterRead` | notifications/src/repositories/notification_triggers.py:19-51 | A concrete run: an upsert between the handler's read and its mark is lost for good |
| `LostUpdates.LostBeforeRead` | notifications/worker/consumer.py:342-377 | A concrete run: an upsert between the publication and the handler's read is lost for good, and every message under its stamp carries the content of the one before |
| `Schedulers.Scheduler.GetTriggersToCheck` | notifications/scheduler/repositories/notification_triggers.py:12-23 | Exactly the active triggers never checked or whose check interval is over, each once |
| `Schedulers.Scheduler.GetDueScheduledMailings` | notifications/scheduler/repositories/admin_mailings.py:12-22 | Exactly the scheduled mailings whose time has come |
| `Schedulers.Scheduler.CheckTrigger` | notifications/scheduler/main.py:64-89 | Publish if the update is newer than the last sending, then mark checked; a fault stops this trigger only |
| `Schedulers.Scheduler.StartMailing` | notifications/scheduler/main.py:94-117 | Publish, then mark sending; a fault stops this mailing only |
| `Schedulers.Scheduler.ProcessTriggers` | notifications/scheduler/main.py:61-89 | A pass over the triggers gives rows and topic the values of the pass, and is a run of the fan-out machine |
| `Schedulers.Scheduler.ProcessMailings` | notifications/scheduler/main.py:91-117 | A pass over the mailings gives rows and topic the values of the pass, and is a run of the fan-out machine |
| `Schedulers.PassOutcome` | notifications/scheduler/main.py:91-117 | A pass turns into `sending` exactly the due mailings without a fault, and publishes exactly one message for each whose publication succeeded |
| `Schedulers.TriggerPassOutcome` | notifications/scheduler/main.py:61-89 | A pass publishes exactly the due triggers with an update newer than their last sending, once each with their own content, and marks checked those that it published or had nothing to publish of, unless a step failed |
| `PendingConsumers.PendingConsumer.MarkSent` | notifications/worker/repositories/admin_mailings.py:11-22 | The last write of a fan-out: status and time of the mailing, or the time of the trigger, and what update was overtaken |
| `PendingConsumers.PendingConsumer.PublishAll` | notifications/worker/consumer.py:305-317 | One bulk message per user in order, cut after any of them |
| `PendingConsumers.PendingConsumer.Resolve` | notifications/worker/consumer.py:291-317 | A failed resolution fails a mailing and is retried; a resolved audience is spread |
| `PendingConsumers.PendingConsumer.HandleMailing` | notifications/worker/consumer.py:274-320 | A mailing message, cut after any call, leaves the state of the machine after those calls, and messages and status as stated for `HandlePending` |
| `PendingConsumers.PendingConsumer.HandleTrigger` | notifications/worker/consumer.py:332-386 | The same for a trigger message: the trigger is read before the template, and the stamp read is kept for the keys |
| `PendingConsumers.PendingConsumer.HandlePending` | notifications/worker/consumer.py:389-407 | For every head message and every number of answers: the users of the audience, as far as the answers go, get their messages in order with template, payload, channel and key written out; then the mailing is sent with its time, or the trigger has its time, and the offset alone moves by one. Without template a mailing fails and is acknowledged, without audience it fails and is retried, a trigger is dropped or retried, and a cut leaves rows and offset as they were |
| `Pipeline.Projects` | notifications/worker/consumer.py:245-262 | Each half of a joint run of fan-out and delivery is a run of its own protocol |
| `Pipeline.BulkIsConsumable` | notifications/worker/consumer.py:305-317 | Everything the fan-out publishes is in its recipient's partition |
| `Pipeline.AcknowledgedIsServed` | notifications/worker/consumer.py:210-262 | A bulk message of a drained partition has a closed row and the exact number of sends |
| `Pipeline.MailingReachesEveryRecipient` | notifications/worker/consumer.py:274-320 | End to end: a mailing marked sent has, for every user of one resolved audience whose partition is drained, a closed row and an exact number of sends, and everything handled under that key carries the mailing's template and payload |
| `Pipeline.TriggerReachesEveryRecipient` | notifications/worker/consumer.py:332-386 | End to end for a trigger that is no longer due and whose last upsert was safe: the same for its current update and its content |
| `SettingsCache.BoundedStaleness` | notifications/worker/notification_settings.py:134-262 | Under any interleaving a returned value is one auth-service answered, either within this very call, or less than cache lifetime plus slowest fetch-to-write delay before this call read it; so at the return it is older than that sum by less than the call took |
| `SettingsCache.InvalidationRemoves` | notifications/worker/notification_settings.py:147-157 | A value served after an invalidation was written after it |
| `SettingsCache.OneHolder` | notifications/worker/notification_settings.py:190-229 | Two readers hold the lock only after some holder outlived it |
| `SettingsCache.NewcomerEntersExactly` | notifications/worker/notification_settings.py:190-229 | On every run: a reader that has missed the cache gets in beside a holder if and only if the lock taken last, the holder's own or a later one, has run out or has been released by somebody; and only after some holder outlived a lock |
| `SettingsCache.LateRelease` | notifications/worker/notification_settings.py:224-229 | A concrete run with two holders, in which the release of the late one frees the lock the other has just taken |
| `SettingsCache.LockIsReleased` | notifications/worker/notification_settings.py:203-229 | Every reader that took the lock releases it last, however it ends |
| `SettingsCache.ReadExactly` | notifications/worker/notification_settings.py:151-160 | In every reachable state a read finds the value written last exactly while it is younger than its lifetime and no invalidation came after it |
| `SettingsAnswers.ConversationExactly` | notifications/worker/notification_settings.py:134-262 | Every reader that returns had a conversation of one of a few shapes, call by call: no such user only if auth-service said so, an error only if a call failed, a value only from the cache or from auth-service; the lock holder writes what it fetched and releases last, and whoever waits fetches only after fifty polls missed |
| `SettingsAnswers.ExecuteSuits` | notifications/worker/notification_settings.py:91-131 | Redis and auth-service answer every call of the machine with a reply of its kind, as the conversations suppose |
| `SettingsAnswers.AlwaysReturns` | notifications/worker/notification_settings.py:230-262 | A reader whose calls are answered returns after at most fifty-four of them |
| `SettingsCache.SettingsReader.GetNotificationSettings` | notifications/worker/notification_settings.py:134-262 | The reader, step by step, makes the calls of the machine and returns its result for every sequence of replies |
| `SettingsCache.SettingsReader.FetchUnderLock` | notifications/worker/notification_settings.py:203-229 | Second look, fetch, write and release: for every sequence of replies the calls and the result are those of the machine |
| `SettingsCache.SettingsReader.WaitForHolder` | notifications/worker/notification_settings.py:230-262 | The polling loop and the fetch after its end, for every sequence of replies |
| `AdminMailings.AdminMailingService.Create` | notifications/src/services/admin_mailings.py:62-109 | Nothing is written when template, payload or publication fails; an immediate mailing is published and then written; a scheduled one is written per zone |
| `AdminMailings.AdminMailingService.CreateBucketed` | notifications/src/services/admin_mailings.py:111-144 | The loop over the zones writes exactly the rows of the specification |
| `AdminMailings.OneRowPerZone` | notifications/src/services/admin_mailings.py:122-144 | Every row stands for a valid zone whose moment is to come, every such zone has a row, and no two rows share a zone |
| `AdminMailings.OwnIds` | notifications/src/services/admin_mailings.py:122-144 | Every row has the identifier drawn for its own zone |
| `AdminMailings.ScheduledOnce` | notifications/src/services/admin_mailings.py:111-144 | A user is reached by exactly one row if in the audience and the local time is to come in the user's zone, and by none otherwise |
| `Audiences.BucketsPartition` | auth/src/repositories/users.py:336-379 | For every filter the zone buckets are disjoint, cover the audience, hold nobody else, and none is empty |
| `Audiences.AudienceExactly` | auth/src/repositories/users.py:293-334 | Who is in an audience, on users, rows and opt-outs: active users who take notifications, in the zone if one is named (none means UTC), and with a counting row whose plan reaches the level if one is named (no row means zero) |
| `Audiences.ZoneDetermined` | auth/src/repositories/users.py:358-367 | A filter that names a zone yields that zone only |
| `Audiences.LevelsAgree` | auth/src/repositories/users.py:293-334 | With one counting row per user, an eligible user is in the audience of a level exactly when the token level reaches it, except at the very moment at which the subscription ends |
| `Audiences.AudienceMatchesLevels` | auth/src/services/login_completion.py:25-45 | The agreement at every moment after every run of registrations, assignments, cancellations, reads and edits in which assignments to one user do not overlap |
| `Subscriptions.AssignSafeExactly` | auth/src/services/user_subscriptions.py:44-61 | Ending an assignment keeps at most one active unexpired row per user if and only if the row that then counts is the one its beginning read, or the new row has already expired |
| `Subscriptions.OverlapGivesTwo` | auth/src/services/user_subscriptions.py:44-61 | A concrete run of two overlapping assignments that leaves a user with two active rows |
| `Subscriptions.RunKeepsTo` | auth/src/repositories/user_subscriptions.py:66-95 | At most one active unexpired row per user after every undisturbed run |
| `Subscriptions.Active` | auth/src/repositories/user_subscriptions.py:66-77 | Exactly the rows of the user that are active and unexpired, in order |
| `Subscriptions.InfoExactly` | auth/src/services/login_completion.py:25-45 | Reading the level switches off the one counting row if it ran out meanwhile and changes nothing else; there is no level exactly if two rows count, or the one that does is of an unknown plan |
| `SubscriptionServices.UserSubscriptionService.AssignSubscription` | auth/src/services/user_subscriptions.py:23-61 | All outcomes, and the whole new table: the current row switched off, one row added |
| `SubscriptionServices.UserSubscriptionService.CancelSubscription` | auth/src/services/user_subscriptions.py:85-96 | Switches off exactly the current row, or reports that there is none |
| `SubscriptionServices.UserSubscriptionService.GetSubscriptionInfo` | auth/src/services/login_completion.py:25-45 | The level and the row switched off when it ran out between the two readings of the clock |
| `SubscriptionServices.AssignedAlone` | auth/src/services/user_subscriptions.py:44-61 | An assignment with nothing in between leaves the new row as the only one that counts |
| `Keyset.ChunkIsPrefix` | movies/etl/extract/queries.py:8-16 | A chunk holds the first rows after the cursor, in order; nothing is left out of a short chunk |
| `Keyset.ChunkCovers` | movies/etl/extract/queries.py:12-15 | The rows up to the last row of a chunk are exactly the chunk |
| `Keyset.ChunkAdvances` | movies/etl/extract/queries.py:12-15 | Moving the cursor to the end of a chunk takes exactly its rows away |
| `EtlProofs.RunKeeps` | movies/etl/pipeline/orchestrator.py:54-76 | The invariant of the three film cursors, over every interleaving of database transactions, queries, bulk requests, checkpoints and crashes |
| `EtlProofs.IndexAgrees` | movies/etl/pipeline/orchestrator.py:54-93 | In every reachable state a film at or below its cursor, whose genres and persons are at or below theirs, has the document built from the database as it is now |
| `EtlConvergence.CycleOutcome` | movies/etl/pipeline/orchestrator.py:63-76 | A cycle with no rows, or whose chunk touches no film, changes nothing; any other indexes exactly the films touched and moves its cursor past the chunk |
| `EtlConvergence.CatchesUp` | movies/etl/pipeline/orchestrator.py:54-82 | On a database at rest n rows are passed after `cycles` cycles if and only if n <= cycles * limit, when chunks touch films |
| `EtlConvergence.CatchesUpExactlyWhen` | movies/etl/pipeline/orchestrator.py:69-71 | A film pipeline ever catches up if and only if every chunk it would meet touches a film |
| `EtlConvergence.StuckForever` | movies/etl/pipeline/orchestrator.py:69-71 | A chunk that touches no film stops its pipeline for good |
| `EtlConvergence.FilmsAlwaysTouch` | movies/etl/extract/queries.py:24-31 | The pipeline over films themselves always meets that condition |
| `EtlConvergence.OrphanGenreBlocks` | movies/etl/extract/queries.py:34-42 | For every chunk size, from a state that one transaction reaches: as many genres without films as a chunk has rows stop the genre cursor for ever, before a genre that has a film |
| `EtlConvergence.CaughtUpIndexIsComplete` | movies/etl/pipeline/orchestrator.py:84-94 | When the three cursors have passed every row, every film's document is right |
| `Orchestrator.FetchFirst` | movies/etl/extract/postgres_extractor.py:59-81 | The loop yields exactly the first rows in keyset order |
| `Orchestrator.EtlOrchestrator.FetchChangedEntities` | movies/etl/extract/postgres_extractor.py:217-226 | Selects the chunk after the cursor, or ends the cycle |
| `Orchestrator.EtlOrchestrator.FetchFilmWorks` | movies/etl/extract/postgres_extractor.py:102-141 | With a transaction before each of the three queries, and cut anywhere: a document for every film that the first still finds, with its columns from the first database, its genres from the second and its cast from the third |
| `EtlCycles.DocsOfOne` | movies/etl/extract/postgres_extractor.py:112-141 | If nothing changes between the queries, these are the documents of the database |
| `Orchestrator.EtlOrchestrator.BulkSave` | movies/etl/load/elastic.py:54-73 | Writes by document id: saving the same batch again changes nothing |
| `Orchestrator.EtlOrchestrator.SetState` | movies/etl/state/state.py:16-20 | The cursor moves only when no document is left to save |
| `Orchestrator.EtlOrchestrator.RunPipeline` | movies/etl/pipeline/orchestrator.py:54-82 | A cycle with a transaction before each step. Uncut it ends in one of three ways: no row lies after the cursor; the chunk touches no film; or every film touched has the document that the queries read, in batches that cover the documents, and the cursor is the last stamp of the chunk. If nothing changes meanwhile and the steps suffice it is not cut, and the index has the database's document of every film touched. Cut, it leaves the cursor |
| `NamedIndexes.DocumentsAgree` | movies/etl/pipeline/orchestrator.py:95-107 | In every reachable state a genre or person at or below its cursor has a document with its present name, and with its present credits if and only if they are those that its last fetch saw |
| `NamedIndexes.ReachesExactly` | movies/etl/extract/postgres_extractor.py:193-215 | However a run goes on that leaves a row alone, with cuts anywhere: once the row is at or below the cursor its document has its credits if and only if the row was still awaited at the start (beyond the cursor and not fetched by the running cycle), or its last fetch had seen these very credits, or the running cycle had fetched it and is cut before its checkpoint |
| `NamedIndexes.ChangeAwaits` | movies/etl/extract/queries.py:106-115 | A change of links leaves a row awaited or not as it was; a bump makes it awaited |
| `NamedIndexes.GenresAgree` | movies/etl/pipeline/orchestrator.py:95-100 | Genre documents always agree below the cursor |
| `NamedIndexes.CatchesUp` | movies/etl/pipeline/orchestrator.py:63-76 | On a table at rest every row is passed after exactly the least number of cycles, with no further condition |
| `NamedIndexes.PersonStaysBehind` | movies/etl/extract/queries.py:106-115 | An instance from a reached state: a person indexed before a film is linked keeps a document without that film, however many cycles follow |
| `NamedPipelines.NamedPipeline.RunPipeline` | movies/etl/pipeline/orchestrator.py:95-107 | The genre or person cycle, in batches of one chunk, computes the cycle of the machine |
| `NamedPipelines.NamedPipeline.TakeBatch` | movies/etl/extract/postgres_extractor.py:263-269 | A non-empty batch of at most one chunk |
| `Transformer.GroupPersonsByFilm` | movies/etl/transform/transformer.py:93-121 | The loop computes the grouping that the lemmas below describe |
| `Transformer.FilmSide` | movies/etl/transform/transformer.py:93-121 | A person is in a film's list for a role exactly when some row says so, and once |
| `Transformer.FilmSideOrderFree` | movies/etl/transform/transformer.py:93-121 | The lists do not depend on the order of the rows, except for their own order |
| `Transformer.BuildPersonsFromRows` | movies/etl/transform/transformer.py:43-78 | The two nested searches compute the documents that the lemmas below describe |
| `Transformer.PersonSide` | movies/etl/transform/transformer.py:43-78 | A person's document lists a film with a role exactly when some row says so; each person, film and role once |
| `Transformer.BothSidesAgree` | movies/etl/transform/transformer.py:43-121 | For any link table, film documents and person documents encode the same relation |
| `Transformer.GroupGenresByFilm` | movies/etl/transform/transformer.py:81-90 | A film's list holds a genre exactly when some row links them, under that row's name, and once |
| `EtlDocuments.ListsEncodeCast` | movies/etl/extract/queries.py:84-94 | The lists built from the persons query hold exactly the credits of the document the index agrees with |
| `EtlDocuments.ListsEncodeGenres` | movies/etl/extract/queries.py:72-81 | The lists built from the genres query hold exactly the genres of the document the index agrees with |
| `EtlDocuments.DocumentExactly` | movies/etl/extract/postgres_extractor.py:112-141 | The document of a film: its own columns, and exactly its genres and credits that still have a row, each with the name in that row |
| `SendLimits.RunPaced` | auth/src/services/two_factor.py:23-57 | On every run of the three services each destination's recorded sends are paced and its two Redis keys are a function of them |
| `SendLimits.RateLimited` | auth/src/services/phone_change.py:44-97 | Recorded sends to one destination are a cooldown apart, and of 2*MAX + 1 consecutive ones the last is a whole window after the first |
| `RealSends.RealAreRecordedAndCuts` | auth/src/services/two_factor.py:47-53 | The real sends are the recorded ones and those cut between delivery and recording, in one order |
| `RealSends.RealRateLimited` | auth/src/services/phone_change.py:76-90 | A recorded send is followed by no real send before its cooldown is over; a stretch of real sends shorter than a window holds at most 2*MAX, and one more for each of its cuts |
| `RealSends.CooldownExactly` | auth/src/services/email_change.py:52-76 | The next send is sure to keep the cooldown of the latest if and only if that one was recorded or its cooldown is over already |
| `RealSends.UnrecordedUnlimited` | auth/src/services/two_factor.py:47-53 | A concrete run for every n: n codes to one number in one second, each call cut between delivery and recording |
| `OverlappingSends.ShutExactly` | auth/src/services/two_factor.py:22-26 | Calls for one destination that overlap in any way: the cooldown turns a call away if and only if some delivery was recorded less than a cooldown ago |
| `OverlappingSends.CloseMeansOverlap` | auth/src/services/two_factor.py:22-53 | Two deliveries of such calls are less than a cooldown apart only if the later call had read the cooldown before the earlier delivery was recorded |
| `OverlappingSends.OverlapCapped` | auth/src/services/two_factor.py:28-58 | Of the sends recorded since the counter opened there are at most the limit, plus one for each call but one that was past the counter at the same time |
| `OverlappingSends.OverlapUnlimited` | auth/src/services/two_factor.py:17-59 | For every n and all limits a run in which n overlapping calls send n codes in one second, all recorded and counted |
| `SendLimits.WindowCapped` | auth/src/services/two_factor.py:29-57 | One counter counts at most MAX sends |
| `SendLimits.GateIsExact` | auth/src/services/two_factor.py:23-35 | A call is let through if and only if the history of sends allows it: cooldown over, and counter below MAX or run out |
| `SendLimits.LostExpiry` | auth/src/services/two_factor.py:54-57 | A counter is without expiry exactly when the send that created it did not set one |
| `SendLimits.ExpiryLostExactly` | auth/src/services/two_factor.py:47-57 | A send leaves the counter without expiry if and only if it already was, or it created the counter and was cut before the expiry or had seen at its start a counter that has run out since |
| `SendLimits.LossIsForEver` | auth/src/services/email_change.py:112-151 | A counter without expiry never ends: at most MAX sends in all from then on |
| `SendLimits.ExpiryCanBeLost` | auth/src/services/two_factor.py:54-57 | A concrete run without a crash in which the expiry is lost: the promise that every counter expires does not hold |
| `CodeHistory.RunHolds` | auth/src/services/email_change.py:24-195 | In every reachable state Redis holds, of every user and service, exactly what the history of answers gives: the pending stage, and an attempt counter that outlives the code |
| `CodeHistory.GuessesBounded` | auth/src/services/email_change.py:86-110 | Between two issues at most MAX guesses are compared and found wrong, in all three services, both e-mail stages together |
| `CodeHistory.LockedExactly` | auth/src/services/two_factor.py:61-69 | While a code is alive, checks are refused if and only if MAX guesses were wrong |
| `CodeHistory.LoginAcceptedExactly` | auth/src/services/two_factor.py:61-87 | A login code is accepted if and only if it is the user's latest, neither used nor expired, and fewer than MAX guesses were wrong |
| `CodeHistory.PhoneAcceptedExactly` | auth/src/services/phone_change.py:101-138 | A phone change is accepted if and only if both codes are those of the latest live request; it returns that request's number |
| `CodeHistory.OldEmailConfirmedExactly` | auth/src/services/email_change.py:78-156 | The first stage issues the second code if and only if the old address's code of the live request is given and the new address may be sent to |
| `CodeHistory.NewEmailAcceptedExactly` | auth/src/services/email_change.py:158-195 | The second stage accepts if and only if the latest confirmation's code is given in time |
| `CodeAnswers.LoginRequestedExactly` | auth/src/services/two_factor.py:17-59 | After every run: a login code is issued if and only if the number's recorded sends allow it; otherwise the answer is the seconds left of the last one's cooldown, or that the counter is full, exactly when it is |
| `CodeAnswers.PhoneRequestedExactly` | auth/src/services/phone_change.py:26-99 | After every run: a change of phone is refused for want of an e-mail exactly if there is none or an empty one; otherwise it is issued, or told to wait, or refused, exactly as the new number's recorded sends say |
| `CodeAnswers.EmailRequestedExactly` | auth/src/services/email_change.py:24-76 | The same for a change of e-mail and the sends to the old address |
| `CodeAnswers.LoginAnswer` | auth/src/services/two_factor.py:61-87 | Every answer of the check: no code pending, too many wrong guesses since the issue, wrong, or accepted, each exactly when |
| `CodeAnswers.PhoneAnswer` | auth/src/services/phone_change.py:101-138 | The same for both codes of a change of phone, with the number returned |
| `CodeAnswers.OldEmailAnswer` | auth/src/services/email_change.py:78-156 | The same for the old address; a right code is answered as the new address's recorded sends say |
| `CodeAnswers.NewEmailAnswer` | auth/src/services/email_change.py:158-195 | The same for the new address, for which nothing is pending until the old one is confirmed |
| `CodeHistory.EmailProvenance` | auth/src/services/email_change.py:158-195 | An accepted change returns the address of the user's latest request; the old address's code of that same request was matched afterwards, and then the latest new-address code before its expiry |
| `CodeHistory.OtherUsersStay` | auth/src/services/email_change.py:24-195 | A call leaves the codes of other users and services alone |
| `CodeServices.SendGuard.Check` | auth/src/services/two_factor.py:23-35 | Cooldown first, then the counter |
| `CodeServices.SendGuard.Deliver` | auth/src/services/two_factor.py:47-57 | Recorded only when delivered and not cut before the recording; the expiry last, and only if no counter was found at the start |
| `CodeServices.TwoFactorService.SendCode` | auth/src/services/two_factor.py:17-59 | Gate, store the code and drop the attempts, deliver, record: in every state, and cut before or after recording, store and answer are those of the specification |
| `CodeServices.TwoFactorService.VerifyCode` | auth/src/services/two_factor.py:61-87 | Attempts, then the code: a wrong guess is counted with a new expiry, a right one deletes code and counter |
| `CodeServices.PhoneChangeService.RequestChange` | auth/src/services/phone_change.py:26-99 | Without an e-mail nothing happens; otherwise the request overwrites the last one and the delivery is recorded only if it succeeds |
| `CodeServices.PhoneChangeService.ConfirmChange` | auth/src/services/phone_change.py:101-138 | Both codes are compared; a wrong one is counted and leaves the request, two right ones delete it and return its number |
| `CodeServices.EmailChangeService.RequestChange` | auth/src/services/email_change.py:24-76 | The old request is deleted, the new one stored with its expiry, attempts are dropped, and the delivery recorded only if it succeeds |
| `CodeServices.EmailChangeService.VerifyOld` | auth/src/services/email_change.py:78-156 | A right code passes the new address's gate before a second code is stored and the expiry renewed; a shut gate changes nothing |
| `CodeServices.EmailChangeService.VerifyNew` | auth/src/services/email_change.py:158-195 | A right code deletes the request and returns its address |
| `SessionProofs.RunRepresents` | auth/src/repositories/sessions.py:61-139 | On every run of split logins, logouts, split refreshes and split revocations, overlapping as they may, in which no refresh outlives its session and no revocation misses one, Redis holds exactly what one book of sessions says |
| `SessionProofs.SessionsConsistent` | auth/src/repositories/sessions.py:61-186 | At every later moment each live session is in its owner's index, and if no login ended on a device that another had taken meanwhile, no two live sessions share user and device |
| `SessionProofs.LoginSafeExactly` | auth/src/services/sessions.py:17-28 | The end of a login keeps one session per device if and only if no session of that user and device is live but those that it deleted |
| `SessionProofs.LoginsCanOverlap` | auth/src/repositories/sessions.py:167-186 | A concrete run of two logins that both read before either adds: two live sessions of one user and device |
| `SessionProofs.UninterruptedAlone` | auth/src/services/sessions.py:17-28 | A login with nothing in between ends alone on its device |
| `Sessions.LoginRuns` | auth/src/services/sessions.py:17-28 | A login in one piece is a run of its steps: it reads, deletes one by one and adds |
| `Sessions.AddedExactly` | auth/src/repositories/sessions.py:61-89 | A new session's hash has its six fields, each with its own value, for the lifetime, and the user's index lists it |
| `Sessions.WipeRevokes` | auth/src/repositories/sessions.py:133-139 | Revoking all sessions removes each one read, both cached verdicts on it and the index, and leaves every other key |
| `SessionProofs.VerifiesExactly` | auth/src/services/sessions.py:32-38 | A refresh token verifies if and only if its session is live and it is the token last handed out for it |
| `SessionProofs.RefreshSafeExactly` | auth/src/services/auth.py:78-103 | After any undisturbed run the end of a refresh keeps every live session indexed if and only if the refreshed session is still live |
| `SessionProofs.RevokedExactly` | auth/src/repositories/sessions.py:128-139 | After any undisturbed run the end of a revocation leaves the user without a live session if and only if each was seen at its beginning |
| `SessionProofs.RefreshCanRevive` | auth/src/services/auth.py:78-103 | A concrete run with a logout between the halves of a refresh, after which a live session is in no index |
| `SessionProofs.DeleteAll` | auth/src/repositories/sessions.py:182-186 | Deleting the matching sessions one by one, in any order, removes exactly them, their index entries and the other services' cached verdicts |
| `SessionServices.SessionRepository.DeleteUserSession` | auth/src/repositories/sessions.py:109-126 | The session, both cached verdicts and the index entry go; an unknown or expired session changes nothing |
| `SessionServices.SessionRepository.DeleteSessionsOnDevice` | auth/src/repositories/sessions.py:167-186 | Deletes exactly the listed live sessions on the device, in some order |
| `SessionServices.SessionRepository.WipeSessions` | auth/src/repositories/sessions.py:133-139 | For every session read its hash and both cached verdicts are gone, and the user's index; every other key is as before; nothing happens if none was read |
| `SessionServices.SessionRepository.GetUserSessions` | auth/src/repositories/sessions.py:141-165 | One row for each live session in the user's index, with its fields and the current mark |
| `SessionServices.SessionService.AddSession` | auth/src/services/sessions.py:17-28 | A login: sessions on the device go, then the new one comes |
| `SessionServices.SessionService.VerifySession` | auth/src/services/sessions.py:32-38 | True exactly when the stored hash is that of the token |
| `SessionServices.AuthService.RefreshToken` | auth/src/services/auth.py:71-105 | Decoding, type, verification, and only then rotation at a later moment; every other outcome leaves Redis alone |
| `SessionServices.AuthService.RevokeRefreshToken` | auth/src/services/auth.py:184-190 | Deletes the session of the token; a token that does not decode does nothing |
| `SessionServices.AuthService.RevokeAllRefreshTokens` | auth/src/services/auth.py:192-198 | For every session in the index of the token's user the hash and both cached verdicts are gone, and the index; every other key is as before |
| `LoaderProofs.NothingLost` | analytics/etl/loaders.py:62-140 | In every reachable state and for every table the accepted rows, in order, are those of the processed batches, the extracted ones and the buffer; batches and buffers are bounded; counters and dead letters account for every processed batch |
| `LoaderProofs.BatchesTakeHeads` | analytics/etl/loaders.py:113-131 | A round takes the front of every buffer once |
| `LoaderProofs.EveryRowOffered` | analytics/etl/loaders.py:192-214 | Every row of a failed batch is offered to the dead-letter queue once, in order, whatever becomes of the others |
| `LoaderProofs.EachOffer` | analytics/etl/loaders.py:192-214 | Each offer is of its own row and says whether that one was delivered |
| `LoaderProofs.StopLeavesExactly` | analytics/etl/loaders.py:111-140 | After a stop that is not cut short, rows arriving until its end: every extracted batch is processed, and what stays behind of a table is exactly what exceeded one batch at the last check, followed by the rows accepted since; nothing stays if and only if both are empty |
| `LoaderProofs.CancelLoses` | analytics/etl/loaders.py:53-60 | When the stop times out, the extracted batches not yet processed are neither counted as inserted nor offered, for good |
| `LoaderProofs.CancelLosesRest` | analytics/etl/loaders.py:201-214 | When it does so inside the dead-letter loop, only the rows offered by then are in the queue, for good |
| `LoaderService.ClickHouseLoader.Add` | analytics/etl/loaders.py:62-84 | Refuses exactly when the table's buffer is full, otherwise appends the row to it, and leaves the other buffers |
| `LoaderService.ClickHouseLoader.CutBuffers` | analytics/etl/loaders.py:113-131 | The loop over the tables yields the batches and cuts the buffers in place |
| `LoaderService.ClickHouseLoader.Insert` | analytics/etl/loaders.py:142-160 | Succeeds if and only if one of the first three tries does, and makes no try after it |
| `LoaderService.ClickHouseLoader.SendToDlq` | analytics/etl/loaders.py:192-214 | Offers the rows, if there is a publisher |
| `LoaderService.ClickHouseLoader.InsertWithRetry` | analytics/etl/loaders.py:162-190 | Counts the batch as inserted, or counts a failure and offers its rows |
| `LoaderService.ClickHouseLoader.FlushRound` | analytics/etl/loaders.py:86-110 | One round of the loop: one batch of every table that had rows is extracted and processed, inserted exactly if one of its three tries succeeds, and what exceeds it stays |
| `LoaderService.ClickHouseLoader.FlushRemaining` | analytics/etl/loaders.py:133-140 | One batch of every table that had rows is extracted and processed, inserted exactly if one of its three tries succeeds, what exceeds it stays, and the loader is stopped |
| `LoaderService.ClickHouseLoader.Shutdown` | analytics/etl/loaders.py:42-60 | Closing between two rounds of the loop and flushing: the same, as a run of the machine |
| `EmailSenders.Throttled` | notifications/worker/senders/email.py:34-38 | With any number of concurrent senders, the k-th admission after one comes at least k intervals later |
| `EmailSenders.AdmittedExactly` | notifications/worker/senders/email.py:24-51 | A sender is turned away if and only if the failures since the last success reach the threshold and the cooldown after the latest failure is not over |
| `EmailSenders.RunKeeps` | notifications/worker/senders/email.py:40-51 | The circuit has a closing time exactly when the trailing failures reach the threshold, and then it is the latest failure plus the cooldown |
| `EmailSenders.NoneBefore` | notifications/worker/senders/email.py:26-32 | Without a recorded success nobody is admitted before the closing time |
| `EmailSenders.EmailSender.ThrottleAndCheckCircuit` | notifications/worker/senders/email.py:24-38 | Refuses exactly when the circuit is open; admits one interval after the last admission, or at once if that is over |
| `EmailSenders.EmailSender.RecordResult` | notifications/worker/senders/email.py:40-51 | A success resets the count and closes the circuit; a failure is counted and opens it for the cooldown from the threshold on |
| `EmailSenders.EmailSender.Send` | notifications/worker/senders/email.py:53-78 | Sends exactly when admitted and delivered, and records the result |

## Left out

- HTTP endpoints, the Django admin, middleware, tracing, logging and settings loading: no state worth proving.
- Template rendering, Argon2, JWT signing, zoneinfo and OAuth: parameters. The session theorems assume an injective token hash (`SessionProofs.VerifiesExactly`) and fresh session ids.
- JWT content: two tokens issued in the same second are taken to be different.
- Registration, user actions, short links, roles, the WebSocket registry and the movies read API: they would only add easy members.
- Kafka rebalancing with two consumers of one partition at a time.
- Real Kafka offsets with several messages in flight: a partition commits its head message only.
- Delivery.EffectivelyOnce: a send that raises is taken to have reached nobody, and the notification row is identified by its deduplication key.
- FanoutProofs.NoLostUpdate: a trigger row is identified by content and type; its identifier is drawn once.
- FanoutProofs.SentMeansFannedOut: speaks of the sent time, not of the status, because the scheduler's `sending` may overwrite the worker's `sent`; for an immediate mailing the worker may even mark before the row exists, and the mark is then lost.
- SettingsCache.BoundedStaleness: delays are counted from the moment auth-service answers.
- SettingsAnswers.ConversationExactly: the polling loop adds exact tenths of a second and so polls fifty times; in binary floating point the sum of fifty tenths is just below five, and the code polls once more.
- SendLimits.RateLimited: recorded sends only; `RealSends` is about all. Calls of the code services follow one another in time, each taking as long as its delivery; `OverlappingSends` is about calls for one destination at the same time, their cooldown and counter only, not the codes they store. Redis expiry has whole seconds.
- CodeHistory.GuessesBounded: the same, calls follow one another.
- CodeHistory.PhoneAcceptedExactly: a change of phone sends two messages, one of them by e-mail; the delivery counts as successful when both are.
- SessionProofs.RunRepresents: the ids and the hashes of a user's sessions are read in one step. The other services' writes to their cached verdicts are not modelled, only the removal.
- SessionServices.AuthService.RefreshToken: nothing falls between the verification and the rotation, which `SessionProofs` covers; the subscription looked up for the new token is not part of it.
- Audiences.BucketsPartition: the buckets are those of the database at one moment; users who change zone between scheduling and sending are not followed.
- Subscriptions.RunKeepsTo: reading and writing of an assignment are two steps, those of a cancellation one.
- EtlProofs.IndexAgrees: rows are never deleted, every transaction stamps its rows with a later moment than the one before, and a changed link bumps its film; the state file is written at once.
- NamedPipelines.NamedPipeline.RunPipeline: a cycle with nothing in between; `NamedIndexes` covers transactions and cuts between its steps.
- EtlConvergence.CatchesUp: cycles of one pipeline on a database at rest; the order of the five pipelines within a round is not modelled.
- Orchestrator.EtlOrchestrator.RunPipeline: documents hold sets of genres and credits; `EtlDocuments` links them to the transformer's lists. Retries of a query by the backoff decorator are later steps of the same cycle.
- Transformer.BothSidesAgree: roles other than director, actor and writer, which the film side files under writers, are excluded as the link table excludes them.
- LoaderProofs.NothingLost: the dead-letter queue is a list of offers, each delivered or not; the sleeps between tries are not modelled.
- LoaderProofs.CancelLoses: an insert that is cancelled is taken to have had no effect.
- LoaderService.ClickHouseLoader.FlushRemaining: no row arrives during it; `LoaderProofs` covers rows that do.
- EmailSenders.Throttled: sleeping lasts at least as long as asked, and time is not rounded.
- EmailSenders.EmailSender.Send: with no other sender about; `EmailSenders.Next` covers the interleavings.
