# Order service, modelled and proved in Dafny

The service keeps orders in PostgreSQL, mirrors every row change to an outbox,
caches order pages in Redis, refreshes that cache through Kafka topics, and
recovers orders from durable commands. This project models those parts over one
shared state and proves what survives failed statements, crashes, duplicates,
reordering and stale reads. `dafny verify dfyconfig.toml` verifies all of it.

## Main results

* **Outbox.** After every history of commands, whichever round trips fail,
  folding the outbox in commit order rebuilds all eleven tables; the table of an
  event is told by its payload's columns alone (`History.OutboxRebuildsTables`).
* **Lifecycle.** Over all histories an order's timestamps, evidence rows,
  counter, intent and snapshot agree (`Lifecycle.LifecycleEvidence`), and every
  column shows the call that wrote it (`Timeline.RowsShowTheirWriters`,
  `Details.DetailsShowTheirWriters`).
* **Success.** After any history and whatever round trips fail, what a call is told
  and whether it took effect is decided exactly (`Success.CallsSucceedExactly`).
* **Claims.** Over every interleaving of both consumer loops, with crashes and
  stale workers, handler calls for an event take turns and none follows a
  success (`Claims.RunsAreExclusive`, `Claims.SuccessIsFinal`).
* **No silent loss.** Below a committed offset every event succeeded, is
  dead-lettered, is in flight or has a retry copy to come, in every run without
  six named faults (`NoLoss.NoSilentLoss`); for each of the six one run shows
  that it does lose a message (module `LossByFault`).
* **Stale reads.** Every cached or queued order shows committed versions of its
  row and snapshot, so the authorisation check on a stale cache is exact
  (`Provenance.RunsAreTraced`, `Provenance.AuthorisationIsExact`), and every
  announced order exists (`Provenance.AnnouncedOrdersExist`).
* **Retries.** No message is ever on an attempt beyond the last, and an event driven
  through claims, retry topic and dead letter costs at most MaxAttempts handler
  calls, exactly as many as its outcomes call for when the requests work
  (`Attempts.AttemptsAreBounded`, `Loops.Bus.DriveMessage`); every copy and dead
  letter carries a published value (`Attempts.MessagesAreGenuine`).
* **Convergence.** A drained FIFO topic leaves the cache equal to the database
  when every change was refreshed (`Drain.DrainedCacheConverges`), as in every run
  without failures (`Drain.CleanRunsConverge`). A preview that republishes a cached
  copy keeps that iff the copy shows what the newest one does
  (`Drain.LookIsHarmlessIfShown`); a run where it does not is `EarlyLook.EarlyLookGoesStale`.
* **Batches and redelivery.** Which questions and how many answers a failing batch
  leaves stored (`Batches.SavedQuestionsAreStored`, `Batches.FailingBatchPersistsPrefix`),
  what a recovery stores (`Recovery.RecoveryStores`), and when a creation handled again changes
  a table (`Recreation.RecreationIsIdempotent`, `Recreation.RecreationChangesOnlyOtherTerms`).
* **Queries and pages.** The join fold, the payment prerequisites, the
  attachment loop and all cache mappers agree with specifications over the tables;
  a page, from the database or the cache, shows what is stored field by field
  (`Redis.HeldPageServed`, `Redis.HeldViewServed`).
* **End to end.** A recovery message below the committed offset is
  dead-lettered, in flight, or its order is stored and announced
  (`RecoverySystem.CommittedRecoveriesAreStored`).

## How the model is laid out

* `text`, `ordering`, `json`, `domain`: trimming, UUID text, ORDER BY, Go's JSON
  decoding rules, domain values.
* `tables`, `outbox`, `commands`: the eleven tables and their JSON, the trigger,
  and each SQL statement and transaction as a function on the store, with a
  fault at any round trip.
* `repository`: the write repository as a class that sends those statements one
  by one, proved against the atomic commands; `batches`: its loops of separate
  commits; `samples`: a few concrete calls for the witnesses.
* `history`, `success`, `lifecycle`, `timeline`, `details`, `recreation`,
  `order_history`, `prerequisites`, `drafts`: what all histories of commands keep.
* `requirements`, `deliveries`, `readback`: the read queries and what they show
  of what was written.
* `order_cache`, `requirements_cache`, `delivery_page`, `redis`: cached
  documents, their mappers with their loops, and the Redis repository as a class.
* `service`, `subscribers`, `recovery`: the application service, the projection
  subscribers and the recovery subscriber.
* `read_model`, `provenance`, `drain`, `early_look`: requests, cache and topic interleaved;
  `mirror` and `refinement` tie them to the Redis class and the service methods.
* `retry`, `broker`, `claims`, `loss`, `faults`: the consumer loops as
  interleaved workers; `attempts`: what the retry header counts; `loops`: one
  iteration of each loop, request by request, and a chain of retries;
  `system` joins them with the recovery handler.

## What is assumed

* A claim is an atomic insert-if-absent on the event id, a release deletes that
  row (migration/postgres/000009_create_processed_events.up.sql:2). The
  idempotency, retry-queue, envelope and dead-letter packages are not part of
  this model beyond that; the retry queue republishes the same value under the
  same event id with the other headers kept and the retry header set.
* `resilience.Retry` with one attempt calls the handler at most once, synchronously.
* SQL transactions are serialised: a statement or a transaction sees the store
  the previous commit left. Row triggers fire in statement order.
* Text sorts by code point, and UUID columns hold canonical lower-case text.
* RFC3339Nano formatting and parsing (section 5.6 of RFC 3339) is a pair of
  functions with a round trip on instants; formatted text carries no padding. A
  formatted time is taken to depend on its instant alone.
* Orders and requirements pages survive the JSON of their topics.
* The file and user services answer anything or fail.

The code is followed where comments say otherwise: question and gig snapshots
are called immutable (internal/domain/order.go:161, internal/domain/order.go:224)
but both are overwritten by upserts (internal/infra/write/postgres/repository.go:58-84).

## Model

| member | source | states |
|---|---|---|
| Broker.MoveKeepsForm | internal/presentation/event_broker/kafka/broker.go:84-129 | every step of either loop keeps workers on messages that exist and committed offsets inside their partitions |
| Broker.RunsExtend | internal/presentation/event_broker/kafka/broker.go:192-253 | every step enabled in a reached state extends its run, so statements over runs exclude no interleaving |
| Loops.Bus.ExplicitIteration | internal/presentation/event_broker/kafka/broker.go:192-253 | one uninterrupted iteration of the explicit loop, over every outcome of its requests: what it commits, claims, dead-letters, and whether the worker goes on |
| Loops.Bus.GroupIteration | internal/presentation/event_broker/kafka/broker.go:84-129 | one uninterrupted iteration of the group loop, which commits only successes, passes duplicates uncommitted, and stops after a dead letter; a message it requeues keeps event, value, whether it unwraps and every header but the retry header, on the next attempt |
| Loops.Bus.FetchAndClaim | internal/presentation/event_broker/kafka/broker.go:85-100 | an event is taken iff it was unclaimed; a claim that errs stops the worker, stored or not |
| Loops.Bus.CallHandler | internal/presentation/event_broker/kafka/broker.go:226-233 | the handler succeeds or the failure, permanent or not, is what is disposed of |
| Claims.StepExclusive | internal/presentation/event_broker/kafka/broker.go:90-129 | claim, call, return, release and every other step keep the whole exclusion invariant |
| Claims.RunsAreExclusive | internal/presentation/event_broker/kafka/broker.go:198-250 | in every reachable state one delivery of an event at most is between claim and release, its claim is stored, and the handler calls for an event take turns: one starts only after every earlier one returned an error |
| Claims.SuccessIsFinal | internal/presentation/event_broker/kafka/broker.go:90-130 | once a handler returned success for an event its claim is stored in every later state and no handler is called for it, in either loop, with crashes, ignored release failures and stale workers |
| Claims.ReleaseFrees | internal/presentation/event_broker/kafka/broker.go:234-237 | a released event is between claim and release for nobody |
| NoLoss.StepLossless | internal/presentation/event_broker/kafka/broker.go:192-253 | each step but the named faults keeps every message below a committed offset or a reader's offset accounted for, and every claim leading to an outcome |
| NoLoss.NoSilentLoss | internal/presentation/event_broker/kafka/broker.go:84-129 | over all runs without those faults, the event of a message below the committed offset succeeded, is dead-lettered, is with a worker between claim and outcome, or was requeued with its copy still to come |
| NoLoss.ExplicitLoopLosesNothing | internal/presentation/event_broker/kafka/broker.go:192-253 | the same for the partition workers of the explicit loop, where the requeue case cannot occur |
| NoLoss.DrainedTopicsAreHandled | internal/presentation/event_broker/kafka/broker.go:84-253 | when all is committed, no copy waits and no worker holds a message, every event ever published succeeded or is dead-lettered |
| NoLoss.FlightAfter | internal/presentation/event_broker/kafka/broker.go:109-129 | a delivery in flight stays in flight, succeeds, is dead-lettered, or leaves a copy on the retry topic |
| NoLoss.OffsetAfter | internal/presentation/event_broker/kafka/broker.go:205-216 | a reader goes past a message only when its event is accounted for, duplicates included |
| LossByFault.CrashLoses | internal/presentation/event_broker/kafka/broker.go:198-217 | a worker that dies between claim and outcome loses the message: the next generation skips it as a duplicate and commits |
| LossByFault.LostClaimLoses | internal/presentation/event_broker/kafka/broker.go:205-210 | so does a claim stored by a request that reports an error |
| LossByFault.GarbledLoses | internal/presentation/event_broker/kafka/broker.go:218-222 | so does an envelope that does not unwrap in the explicit loop, whose claim is kept |
| LossByFault.UnwrittenDeadLetterLoses | internal/presentation/event_broker/kafka/broker.go:238-252 | so does a dead letter that is not written: the offset is committed all the same |
| LossByFault.UnreleasedRequeueLoses | internal/presentation/event_broker/kafka/broker.go:110-123 | so does a release that fails before a requeue: the copy is skipped as a duplicate |
| LossByFault.UnwrittenCopyLoses | internal/presentation/event_broker/kafka/broker.go:115-123 | so does a retry copy that is not written when a second reader skipped the message meanwhile |
| Retry.RetryAttempt | internal/presentation/event_broker/kafka/broker.go:132-141 | the search loop returns the attempt of the first usable retry header |
| Retry.AttemptIsFirstCarried | internal/presentation/event_broker/kafka/broker.go:132-141 | the attempt is at least 1, is 1 without a usable header, and is else the value of the first usable one |
| Retry.AtoiInvertsItoa | internal/presentation/event_broker/kafka/broker.go:135-135 | parsing a printed attempt gives the attempt |
| Retry.RequeuedAttempt | internal/presentation/event_broker/kafka/broker.go:115-117 | the consumer reads back the attempt the retry queue was given, whatever headers the message had |
| Retry.RequeuedKeeps | internal/presentation/event_broker/kafka/broker.go:115-117 | a requeued copy has every other header, in order, and the retry header once |
| Loops.Bus.DriveMessage | internal/presentation/event_broker/kafka/broker.go:84-129 | a message and its retry copies through one reader, over the claim table, the retry topic and every outcome of every request: at most MaxAttempts handler calls of its event (one if that is 0). When the requests work, a claimed event costs none, an undecodable message none and is dead-lettered, and any other exactly as many as it takes to the first call that does not fail transiently or to the last attempt; then it succeeded, or is dead-lettered with the value it was published with |
| Attempts.AttemptsAreBounded | internal/presentation/event_broker/kafka/broker.go:109-141 | over all runs of both loops, if producers send no retry header, no message, requeued or redelivered any number of times, is on an attempt beyond MaxAttempts |
| Attempts.MessagesAreGenuine | internal/presentation/event_broker/kafka/broker.go:109-158 | over all runs every message in a partition, on the retry topic or dead-lettered has event and value of one that a producer published |
| Tables.RowRoundTrip | migration/postgres/000008_create_outbox_events.up.sql:20-22 | a row of any of the eleven tables is rebuilt from its JSON alone, its table told by the members present |
| Tables.ColumnSetsAreDistinct | migration/postgres/000008_create_outbox_events.up.sql:27-48 | no two tables have the same columns after migrations 1 to 7 |
| Outbox.WriteIsReplayed | migration/postgres/000008_create_outbox_events.up.sql:16-28 | an insert or update keeps the tables equal to the replay of the outbox |
| Outbox.EraseIsReplayed | migration/postgres/000008_create_outbox_events.up.sql:18-23 | so does a delete |
| History.OutboxRebuildsTables | migration/postgres/000008_create_outbox_events.up.sql:16-48 | after every history of commands, with faults at any round trip, folding the outbox in commit order rebuilds all eleven tables |
| History.CallsAreAtomic | internal/infra/write/postgres/repository.go:284-334 | whichever statements of a call fail, tables and outbox are untouched or exactly as without failures; success means the latter, not-found the former |
| History.StepKeeps | internal/infra/write/postgres/repository.go:284-690 | a call does nothing but write rows of its own order in its own tables |
| History.OtherOrdersUntouched | internal/infra/write/postgres/repository.go:87-211 | a call leaves the rows of every other order alone |
| History.RunIsWellKeyed | migration/postgres/000001_create_orders.up.sql:1-20 | after every history rows sit under their primary keys and order ids are UUIDs |
| Lifecycle.StepAdvances | internal/infra/write/postgres/repository.go:504-690 | a call leaves the store alone or advances its target order to one stated state, and only when the order may take it |
| Lifecycle.AdvanceKeepsEvidence | internal/infra/write/postgres/repository.go:504-690 | every committed command keeps the lifecycle evidence of its order |
| Lifecycle.LifecycleEvidence | internal/infra/write/postgres/repository.go:284-690 | over all histories with rollback anywhere: delivered_at iff a delivery row; disputed_at iff a dispute row, of the order's buyer, with the role buyer when the trimmed initiator is the trimmed buyer id and seller otherwise; a revision row iff some request committed, of the order's buyer, and the counter counts exactly those; a session implies a payment intent; an order has its snapshot and nothing refers to a missing order |
| Lifecycle.RunPersists | internal/infra/write/postgres/repository.go:43-51 | an order once stored stays, and no statement changes its parties and terms |
| Timeline.RowsShowTheirWriters | internal/infra/write/postgres/repository.go:43-211 | over all histories every column of an order's rows is the one its last writer gave: terms by the first creation, status and updated_at by the last update, intent, release, reason and lifecycle times by the last call of their kind, creation times by the first |
| Details.DetailsShowTheirWriters | internal/infra/write/postgres/repository.go:71-157 | after any history a question, answer, message, attachment or delivered file is stored iff a call that writes it committed; it holds the last such call's values, column by column, under the time of the first |
| Success.CallsSucceedExactly | internal/infra/write/postgres/repository.go:284-690 | after any history and whatever round trips fail: a call takes effect iff its ids parse, its order is stored, its guards hold, nothing before its commit failed and the commit was not refused; it is told success iff the commit was also acknowledged, and not-found iff an update that parses found no row |
| Drafts.DetailsHaveOrders | internal/infra/write/postgres/repository.go:71-157 | after any history every stored question, answer, message, attachment and file belongs to a stored order |
| Drafts.DraftPageListsItsQuestions | internal/application/service.go:126-177 | a draft of a new order that saved its questions has a requirements page of exactly those, of two under one id the later, unanswered and without a message |
| Recreation.RecreationKeepsTheOrder | internal/infra/write/postgres/repository.go:43-69 | creating an existing order changes no table but its snapshot, and of that everything but created_at |
| Recreation.RecreationIsIdempotent | internal/infra/write/postgres/repository.go:284-334 | the same creation again, after any further history that committed no creation of the order with other terms, at any time and with any faults, changes no table |
| Recreation.RecreationChangesOnlyOtherTerms | internal/infra/write/postgres/repository.go:43-69 | after any history a creation of a stored order changes a table iff it commits and asks for other gig terms than the snapshot shows |
| OrderHistory.OrdersAreSound | internal/infra/write/postgres/repository.go:295-328 | every stored order has UUID parties and its gig snapshot |
| OrderHistory.OrderStays | internal/infra/write/postgres/repository.go:43-69 | an order of any earlier version is stored now with its snapshot and the same parties and terms |
| ReadBack.LoadedShowsColumns | internal/infra/write/postgres/repository.go:692-745 | every field of a loaded order is the stored column of its name, the snapshot's for the gig terms and the row's for the rest, null texts as empty and null times as the epoch |
| ReadBack.CreationReadsBack | internal/infra/write/postgres/repository.go:284-334 | a successful creation reads back with the gig terms it asked for, a new order with everything it asked for, an existing one with the status and parties it had |
| Postgres.Repository.GetById | internal/infra/write/postgres/repository.go:345-354 | row then snapshot, not-found when either is missing, in two separate reads |
| Postgres.Repository.Create | internal/infra/write/postgres/repository.go:284-334 | the two upserts of one transaction and the read-back refine the atomic command |
| Postgres.Repository.Execute | internal/infra/write/postgres/repository.go:356-422 | a single statement with its own commit and the read-back refine the atomic command |
| Postgres.Repository.SaveCheckoutSession | internal/infra/write/postgres/repository.go:504-513 | two statements, two commits: an error of the second leaves the first |
| Postgres.Repository.SaveDelivery | internal/infra/write/postgres/repository.go:519-547 | the update, the delivery row and the attachment loop of one transaction refine the atomic command, at whichever attachment it fails |
| Postgres.Repository.RequestRevision | internal/infra/write/postgres/repository.go:613-633 | update guarded by the buyer, then the revision row, or nothing |
| Postgres.Repository.OpenDispute | internal/infra/write/postgres/repository.go:635-660 | update, role of the initiator, dispute row, or nothing |
| Batches.SaveQuestionSnapshots | internal/infra/write/postgres/repository.go:336-343 | the loop saves snapshots until one fails, each committed on its own; what that leaves is the next row |
| Batches.SavedQuestionsAreStored | internal/infra/write/postgres/repository.go:336-343 | success iff every save is valid and meets no fault; each question holds the last parameters given for its id under its first time, for the saves before the failing one and for the failing one iff it is valid and only its reply was lost; no other question and no other table changes |
| Batches.BatchPersistsPrefix | internal/application/service.go:425-433 | a batch changes only answers of its order: those whose statement took effect, each question left with the last of their values, all others as before |
| Batches.FailingBatchPersistsPrefix | internal/application/service.go:425-433 | a failing batch persists the answers before the failing one, and the failing one exactly when its ids are UUIDs, its order and question are stored and its statement was not refused: not being saved and being reported as failed are different things |
| Batches.FailingBatchFailsOnce | internal/application/service.go:425-433 | a batch that is not saved fails at exactly one answer |
| Batches.FailedAnswerIsStored | internal/application/service.go:425-433 | runs where the answer reported as failed is stored: a lost reply, and a failed read-back |
| Requirements.GetRequirementsById | internal/infra/write/postgres/repository.go:424-495 | the fold over the joined rows answers exactly when the order has a question or a message that is not blank, and then with its page |
| Requirements.ScanIsPage | internal/infra/write/postgres/repository.go:256-276 | the fold of the LEFT JOIN rows is the page told from the tables column by column: questions strictly sorted, each with its answer iff one is stored, and the message unless blank |
| Requirements.PageIsUnique | internal/infra/write/postgres/repository.go:256-276 | the tables determine the page |
| Requirements.PrerequisitesMatchPage | internal/infra/write/postgres/repository.go:219-239 | requirements_completed iff every required item of the page has an answer; a shown message is completed; a completed one is not shown exactly when it is whitespace but not all spaces |
| Prerequisites.RequirementsFallOnlyToQuestions | internal/infra/write/postgres/repository.go:219-239 | completed requirements become incomplete by a call iff it commits a required question of that order without a stored answer |
| Prerequisites.SavedMessageIsShown | internal/infra/write/postgres/repository.go:241-245 | a saved message is the one the page shows unless blank and the one that counts unless all spaces, under its first creation time |
| Ordering.AnswerIsStrict | internal/infra/write/postgres/repository.go:129-134 | an ORDER BY over distinct keys answers the selected rows strictly sorted, each once |
| Ordering.SortedListsAgree | internal/infra/write/postgres/repository.go:129-134 | that answer is the only one |
| Text.BlankText | internal/infra/write/postgres/repository.go:233-238 | Go's and SQL's notions of blank text, by what trimming leaves |
| Text.TrimIsMiddle | internal/application/service.go:816-822 | trimming leaves the middle of a text: all around it is space, its two ends are not |
| DeliveryFiles.GetDeliveryById | internal/infra/write/postgres/repository.go:549-593 | found iff a delivery row exists; its files are exactly the order's, strictly sorted by (sort_order, file_id) |
| DeliveryFiles.AttachmentsRoundTrip | internal/infra/write/postgres/repository.go:535-542 | the first delivery of an order reads back as its non-blank attachment ids in input order, the last occurrence of each, at its one-based index |
| DeliveryFiles.FilesOfAllDeliveries | internal/infra/write/postgres/repository.go:151-155 | after any history the files of an order are those of all its committed deliveries, each at the position its most recent one gave |
| DeliveryFiles.DeliveryPlacesFiles | internal/infra/write/postgres/repository.go:535-542 | a committed delivery places its attachments and moves no other file |
| OrderCaching.MappersProject | internal/infra/read/redis/mapper.go:10-94 | mapping an order to the cache and back keeps the projected fields and clears the rest |
| OrderCaching.FlatAndNestedAgree | internal/infra/read/redis/mapper.go:56-118 | the nested and the flat document of an order stand for the same order, but for saga and participants |
| OrderCaching.OrderRoundTrip | internal/infra/read/redis/model/order.go:4-48 | a nested document decodes from its JSON to itself, omitted members included |
| OrderCaching.LegacyRoundTrip | internal/infra/read/redis/model/order.go:50-71 | so does a flat legacy document |
| OrderCaching.LegacyLooksBlank | internal/infra/read/redis/repository.go:142-158 | a flat document decodes as a nested one with a blank header |
| Redis.KeysAreDistinct | internal/infra/read/redis/repository.go:33-40 | no two cached documents share a key |
| Redis.Repository.Upsert | internal/infra/read/redis/repository.go:42-60 | overwrites exactly the order's key; a nil order writes nothing |
| Redis.Repository.UpsertRequirements | internal/infra/read/redis/repository.go:62-80 | overwrites exactly the requirements key |
| Redis.Repository.UpsertDelivery | internal/infra/read/redis/repository.go:82-100 | overwrites exactly the delivery key |
| Redis.Repository.GetById | internal/infra/read/redis/repository.go:128-160 | answers what the payload stands for: nested unless its id is blank, else legacy, with the three kinds of error |
| Redis.Repository.GetPreviewById | internal/infra/read/redis/repository.go:162-206 | for every raw payload, the id, time and status of what GetById answers, or the same error |
| Redis.Repository.GetRequirementsById | internal/infra/read/redis/repository.go:208-229 | answers the decoded page, missing or undecodable |
| Redis.Repository.GetDeliveryById | internal/infra/read/redis/repository.go:102-126 | answers the decoded page; one blank in head and files is missing |
| Redis.UpsertReadsBack | internal/infra/read/redis/repository.go:128-160 | an upserted order with a non-blank id reads back as its projection, every field the page shows in its place, never through the legacy branch |
| Redis.LegacyReadsBack | internal/infra/read/redis/repository.go:152-158 | a flat payload with a non-blank id always reads back through the legacy branch |
| Redis.BlankOrderServed | internal/infra/read/redis/repository.go:143-158 | an order with a blank id is answered exactly for a payload that fails to decode as nested and decodes as flat with a blank id |
| Redis.BlankOrderWitness | internal/infra/read/redis/repository.go:143-150 | such a payload exists |
| Redis.DeliveryReadsBack | internal/infra/read/redis/repository.go:102-126 | a cached delivery with a head reads back as itself without its seller |
| Redis.HeldPageServed | internal/application/service.go:287-297 | a cached requirements document that shows a page of the tables is read and served as one that shows the same |
| Redis.HeldViewServed | internal/application/service.go:300-330 | so is a cached delivery document, without the seller, a URL not found looked up once more under the trimmed id |
| RequirementsCaching.MapToCache | internal/infra/read/redis/requirements_mapper.go:11-32 | every pair in order, each text trimmed in its own field, an answer iff there is one, and the message with both times |
| RequirementsCaching.MapToDomain | internal/infra/read/redis/requirements_mapper.go:34-53 | the inverse but for the parties, which are not cached, and times that do not parse |
| RequirementsCaching.ToResult | internal/application/service.go:923-964 | the served page: every pair in order, each text trimmed in its own field, an answer iff there is one, and the message with both times |
| RequirementsCaching.CacheRoundTrip | internal/infra/read/redis/model/requirements.go:4-34 | a cached page decodes from its JSON to itself, absent questions, answers and message included |
| RequirementsCaching.CachedPageIsCanonical | internal/application/service.go:287-297 | for every document, the page served through the cache is the page served without it |
| RequirementsCaching.DatabasePageShows | internal/application/service.go:923-964 | for any page of the tables both the cached and the served document show its items one by one, id, text, type, required, position and answer, and its message |
| RequirementsCaching.CachedPageShows | internal/application/service.go:287-297 | a cached document that shows a page is decoded and served as one that shows it |
| DeliveryPage.ToPage | internal/application/service.go:750-785 | each file in order with its stored URL or the resolved one; no page without a delivery |
| DeliveryPage.ToDomain | internal/application/service.go:787-814 | the projection before the synchronous cache write, unparsable times as zero |
| DeliveryPage.DeliveryProjection | internal/presentation/event_broker/kafka/subscribers.go:162-175 | the projection before the subscriber's cache write |
| DeliveryPage.MapToCache | internal/infra/read/redis/delivery_mapper.go:11-33 | the cached delivery of a projection |
| DeliveryPage.MapToDomain | internal/infra/read/redis/delivery_mapper.go:35-57 | the projection of a cached delivery; none without message and time |
| DeliveryPage.CacheRoundTrip | internal/infra/read/redis/model/delivery.go:4-21 | a cached delivery decodes from its JSON to itself |
| DeliveryPage.WritersAgree | internal/presentation/event_broker/kafka/subscribers.go:147-175 | the synchronous refresh and the subscriber store the same value for every projection |
| DeliveryPage.CachedPageIsCanonical | internal/application/service.go:750-814 | the page served from the cache equals the canonical page but for the seller id, iff no blank URL resolves under its trimmed file id |
| DeliveryPage.TrimmedIdsSettle | internal/application/service.go:762-783 | file ids stored without surrounding space meet that condition |
| DeliveryPage.DatabasePageShows | internal/application/service.go:750-785 | for any stored delivery the page shows seller, message and time, and each file's id, position, time and resolved URL, in order |
| DeliveryPage.RefreshCaches | internal/application/service.go:787-814 | a refresh with a page that shows a delivery caches a document that shows it |
| DeliveryPage.CachedViewShows | internal/application/service.go:300-330 | a cached document that shows a delivery is decoded and served as a page that shows it without the seller, a URL not found looked up once more under the trimmed id |
| Provenance.StepKeepsTraced | internal/application/service.go:655-682 | each command, write-back, message and read keeps every cached, queued and held order traceable to committed versions |
| Provenance.RunsAreTraced | internal/infra/write/postgres/repository.go:692-745 | in every run each cached or queued order shows, field by field, one committed version of its row and one of its snapshot, the snapshot no older than the row |
| Provenance.AnnouncedOrdersExist | internal/presentation/event_broker/kafka/recovery_subscriber.go:112-125 | every order announced as created or as recovered is stored with its snapshot |
| Provenance.CopiesDecideAlike | internal/application/service.go:221-223 | any traceable copy of an order, however stale, gives the stored order's answer to the user check |
| Provenance.AnswerIsExact | internal/application/service.go:204-223 | the step that grants or refuses a preview does so by the order stored at that moment |
| Provenance.AuthorisationIsExact | internal/application/service.go:204-259 | over all interleavings GetOrderPreviewByID grants exactly when, as it answers, the order is stored and the trimmed user is its buyer or seller |
| ServiceRuns.CreateIsARun | internal/application/service.go:81-108 | what Create leaves in history, cache, topic and results is what a request of the interleaved model leaves |
| ServiceRuns.DraftIsARun | internal/application/service.go:126-177 | what CreateDraftOrder and a recovery's completion leave in store, cache, topic and completions is what a draft request of the interleaved model leaves, whichever question fails |
| ServiceRuns.PreviewIsARun | internal/application/service.go:204-259 | what GetOrderPreviewByID grants and writes back is what a request of the interleaved model does |
| CacheMirror.UpsertKeepsMirror | internal/infra/read/redis/repository.go:42-60 | an upsert of the Redis store is an upsert of the interleaved model's cache |
| CacheMirror.MirrorReads | internal/infra/read/redis/repository.go:128-160 | a read of the Redis store is a read of that cache |
| CacheMirror.SeenOrderDecides | internal/application/service.go:214-223 | so the order the service sees, cached or not, is granted exactly to the stored order's parties |
| Drain.RunsStayInStep | internal/application/service.go:655-682 | over sequential commands and FIFO deliveries the newest copy of every order not stale shows its database page |
| Drain.DrainedCacheConverges | internal/application/service.go:655-682 | once the topic is empty a cached order shows its current row and snapshot field by field, if every job that changed them without refreshing was followed by one that refreshed |
| Drain.CleanRunsConverge | internal/application/service.go:655-682 | a run whose jobs all succeed, read back and recover no stored order ends, once drained, with every cached order showing its row and snapshot field by field |
| Drain.StaleOrdersWereLeft | internal/application/service.go:655-682 | an order is stale only because some job of the run left it and no later one refreshed it |
| Drain.OnlyFailuresLeave | internal/application/service.go:126-177 | a job leaves its order only as a recovery that skips the projection, or when a call or the read-back failed |
| Drain.LookIsHarmlessIfShown | internal/application/service.go:214-250 | after a preview writes back and republishes the cached copy, the drained cache shows the page iff that copy showed what the newest one does |
| Drain.QuietIsShown | internal/application/service.go:214-250 | with no copy of the order queued it does |
| EarlyLook.EarlyLookGoesStale | internal/application/service.go:214-250 | a run of two commands and one delivery reaches a line where the buyer's read makes the drained cache show the older copy |
| Drain.RefreshShowsPage | internal/application/service.go:126-176 | the order a job refreshes is the one its own calls left, questions saved after the read-back included |
| Application.Service.RefreshOrderProjection | internal/application/service.go:655-682 | hydrates, upserts and publishes the same order; cache and topic failures are swallowed |
| Application.Service.HydratePictureUrl | internal/application/service.go:816-831 | trims the picture fields in place and fills only a blank URL of a non-blank file, with what the file service answers for the trimmed id |
| Application.Service.HydrateParticipants | internal/application/service.go:833-863 | fills only the participants that are unknown: the customer with the trimmed user of the buyer's id, the freelancer with the seller's |
| Application.HydrationIsEnrichment | internal/application/service.go:816-863 | hydration only enriches, so the interleaved model covers it |
| Application.Service.Create | internal/application/service.go:81-108 | publishes success iff the order was committed and read back, failed on any repository error, also one after the commit |
| Application.Service.CreateDraftOrder | internal/application/service.go:126-177 | creation, then questions until one fails (what is stored says Batches.SavedQuestionsAreStored); both pages are refreshed iff not skipped and all was saved, and either cache write may fail without the other |
| Application.Service.Apply | internal/application/service.go:110-124 | one command, read-back and refresh; an error refreshes nothing, and is not-found iff the command or its read-back found no row |
| Application.Service.MarkPaymentPending | internal/application/service.go:389-401 | the two commits of the checkout, and a refresh only after both |
| Application.Service.RefreshPages | internal/application/service.go:655-703 | the order, then its requirements page if it can be read, are cached and published; either write may fail without the other |
| Application.Service.SaveRequirementAnswers | internal/application/service.go:425-449 | the batch loop, and a refresh of both pages only if every answer was saved and read back; says what cache and topics hold then |
| Application.Service.SaveBuyerInitialMessage | internal/application/service.go:451-467 | message, read-back and refresh of both pages; says what cache and topics hold then |
| Application.Service.SaveDelivery | internal/application/service.go:510-549 | succeeds iff committed and read back; the order and, if both queries answer, the delivery page are cached and announced, each best effort of its own |
| Application.Service.GetOrderPreviewById | internal/application/service.go:204-259 | granted to the parties of the order seen, cached or stored, which is hydrated and written back; every refusal is a not-found that changes nothing |
| Application.Service.CheckAccess | internal/application/service.go:261-285 | not-owned is told from not-found by one more canonical read; a grant writes the order back, a refusal nothing |
| Application.Service.GetOrderRequirementsById | internal/application/service.go:261-298 | a page of the tables, item by item, when it is read from them, which is then cached and announced; from the cache what the cached document shows; nothing else is written but the order |
| Application.Service.BuildOrderDeliveryProjection | internal/application/service.go:551-557 | a page showing the stored delivery and its files, each in its fields, not-found iff there is no delivery |
| Application.Service.RefreshOrderDeliveryProjection | internal/application/service.go:705-723 | caches a document showing the stored delivery and its files |
| Application.Service.GetOrderDeliveryById | internal/application/service.go:300-366 | the stored delivery, file by file, when it is read from the tables, then cached and announced; from the cache what the cached document shows; nothing else is written but the order |
| Subscribers.HandlePreview | internal/presentation/event_broker/kafka/subscribers.go:96-102 | caches the order it was sent over whatever is cached |
| Subscribers.HandleRequirements | internal/presentation/event_broker/kafka/subscribers.go:121-127 | caches the requirements page it was sent |
| Subscribers.HandleDelivery | internal/presentation/event_broker/kafka/subscribers.go:147-161 | caches a document showing the stored delivery and its files, exactly as the synchronous refresh does |
| Recovery.Validate | internal/presentation/event_broker/kafka/recovery_subscriber.go:58-111 | accepts exactly the supported, decodable commands complete after defaulting and returns the payload with order id and idempotency key defaulted; an incomplete one fails permanently whatever order the fields are looked at, naming a blank one |
| Recovery.FoldsLikeAscii | internal/presentation/event_broker/kafka/recovery_subscriber.go:66-68 | on ASCII text the operation is compared letter by letter in lower case |
| Recovery.Subscriber.Handle | internal/presentation/event_broker/kafka/recovery_subscriber.go:58-126 | an accepted command is one creation without projections that stores what its payload says; a refused one changes nothing; a completion is published only for an order stored with its snapshot, with its status and the command's ids |
| Recovery.RecoveryStores | internal/presentation/event_broker/kafka/recovery_subscriber.go:90-112 | a recovery that succeeds, or commits while told to have failed, stores the payload's parties, terms, key and time, column by column, in a new order, and its gig terms in the snapshot of a new or a stored one; nothing else changes |
| Recovery.HandlingTwiceIsOnce | internal/presentation/event_broker/kafka/recovery_subscriber.go:90-115 | a recovery redelivered after any further history, payments and deliveries included, changes no table unless the order was created with other terms meanwhile |
| RecoverySystem.SuccessIsCompleted | internal/presentation/event_broker/kafka/recovery_subscriber.go:112-125 | a handler call that returns success has announced the order its message asks for |
| RecoverySystem.CommittedRecoveriesAreStored | internal/presentation/event_broker/kafka/broker.go:192-253 | end to end: a recovery message below the committed offset is dead-lettered, is between claim and outcome, or its event was completed and its order is stored with its snapshot |

## Left out

- The NATS broker and subscribers: a compatibility path with simple acknowledgement.
- gRPC field copying, file and user clients, wiring, configuration, migrations runner, connections, metrics, logs and traces.
- GetOrderCountByGigID, GetOrderPaymentSnapshot and GetOrderLifecycleSnapshot: single reads or field copies.
- The broker without a claim database: no claim, no release, nothing to exclude.
- Byte-level JSON, case-insensitive member names and duplicate members; Go's decoding is kept on JSON values.
- Generation rebalancing inside kafka-go: a reader may start anywhere at or below the committed offset, and commits may be refused.
- Concurrent SQL transactions: serialised, so isolation levels and lock waits are not captured.
- The order in which the three subscriptions of the command subscriber are started.
- The payloads of projection requests on the delivery topic beyond the order id, which is all the subscriber uses.
- Error texts, and the clock values written to result, completion and dead-letter records.
- NoLoss.NoSilentLoss: one direction; a run with one of the six faults may still lose nothing, so each is shown to lose by a run instead of by an equivalence.
- Drain.DrainedCacheConverges: one direction and commands one after the other; two interleaved refreshes of one order may publish in the wrong order, and an order that was left may be right by chance.
- Loops.Bus.DriveMessage: one reader with nobody else acting, and each copy redelivered once; a copy delivered twice may cost a further call when its claim was released.
- Redis.UpsertReadsBack: stated for the integer widths of the Go fields.
- RecoverySystem.CommittedRecoveriesAreStored: stated for events; two messages under one event id count as one, as the claim table treats them.
- Application.Service.CheckAccess: the opening of the requirements and delivery reads, which the source repeats in both.
- Loops.Bus.ExplicitIteration: one worker alone; between its requests other workers may act, which the step relation of `broker` captures.
- ServiceRuns.CreateIsARun: of the service methods creation, draft and preview are tied to the interleaved model by a lemma; the others are jobs of it.
