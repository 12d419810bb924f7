# Orchestron outbox: delivery protocol and intake, verified

Orchestron receives events, validates and stages them, and stores each one as a PENDING row
of an outbox table, or as a dead letter. A background processor fetches the oldest PENDING
rows, publishes each with retries, and marks the row PUBLISHED or FAILED or counts a failed
round. This project models that system in Dafny and proves what it guarantees, for one
processor and for any number of processors over the same table. Verify everything with
`dafny verify dfyconfig.toml`.

## How it is built

`Protocol` is a labelled state machine over the outbox table, the broker log and any number
of workers. Each label is one atomic effect: an insert, a fetch, one send, one committed or
lost write, a crash. Workers act on the batch they fetched, which may be stale. A history per
row, which outlives the row, counts failed rounds, committed increments, fetches,
acknowledged and ambiguous sends, and lost marks.

On top of it:

- `Safety`, `Mailbox`, `Counting`, `Destinations`, `LifeCycle`: any number of workers, every
  interleaving, crashes and lost writes anywhere.
- `Budget`, `Draining`, `Waiting`, `Overlap`: quantities, for any number of overlapping workers.
  A potential counts the rounds that may still happen; it pays for every completed call, and
  bounds how soon the outbox drains, how long a row waits, and how often a row is sent or fails.
- `SingleWorker`, `Order`, `Outcome`: what holds with one worker only.
- `Serial`: workers whose calls never overlap can be merged into one worker, so what holds
  with one worker holds for any number of them that take turns.
- `TwoWorkers`: what is lost when calls overlap, and the exact condition under which PUBLISHED
  is final.
- `Faults`: crashes and writes that do not commit, and what a theorem may rule out of them.
- `Outbox`, `OutboxWorker`, `Publisher`: the repository, the processor and the publisher as
  classes with the loops of the original. Each method is proved to take exactly the protocol
  steps that its environment's behaviour prescribes, so the theorems apply to them.
- `Effects`: what an entry and a batch leave in the table and the log, told from the broker's
  answers and the fates of the writes alone, without the protocol.
- `Schemas`, `Stages`, `Intake`, `DeadLetters`, `Routing`: the intake pipeline and its tables.

"Delivered" means the message is in the broker log. A send is *acknowledged* if the broker
call returned nil, and *ambiguous* if it returned an error after the message was handed over.
A *calm* step is one that is not a crash and whose database write commits. Most theorems ask
for less than calm runs: that *writes commit* (workers may crash at any point), that *failed
rounds are recorded* (no crash or lost write comes between a failed round and its count, or its
FAILED mark where that is due), or that *marks are recorded* (none comes between an acknowledged
send and its PUBLISHED mark).

## Assumptions

- The retry library is an oracle: finitely many tries, then success or giving up. The results
  about the retry budget speak of rounds that are given up while the writes that follow still
  commit. Its exponential backoff has no cap, so in practice it gives up only when the context
  is cancelled, and the count and the FAILED mark are written under the same context. For
  that case `Counting.CancelledRoundsLeaveNoTrace` says what happens instead: no retry is
  ever counted and no row is ever FAILED.
- Each repository call is one atomic step. A write commits, does not commit, or commits and
  still reports an error.
- Rows with equal creation times are fetched and listed in any order. Nothing proved here
  depends on a tie rule.
- JSON is a pair of functions. Encoding may fail; what was encoded parses back to an event
  with the same ID and type; an event whose payload cannot be encoded cannot be encoded
  either. The schema library is a function from schema document and payload to a verdict.
- Version strings are compared character by character.
- Times are integers and come from the environment.

## What the code does not do

- If a round can be given up while the writes that follow still commit, then with two
  processors PUBLISHED is not final. One of them can mark a row FAILED after the other
  delivered and marked it, in a run without a crash or a lost write
  (`TwoWorkers.PublishedCanBecomeFailed`). PUBLISHED is final if and only if no such write
  commits, or there is at most one processor, or nothing can be sent at all
  (`TwoWorkers.PublishedIsFinalIff`). It is also final for processors whose calls never overlap
  (`Serial.SerialFinalStays`): that is what the lock in `outbox_processor.go`, which nothing
  acquires, would give within one process.
- Under the same proviso overlapping processors can fail more rounds on a row than its budget:
  up to its maximum less one and two for each processor (`Overlap.RoundsPerWorker`), which two
  processors reach (`TwoWorkers.TwoReachTheBound`).
- `repository/schema_repository.go` speaks of the latest schema, but selects the greatest
  version string. Version "10" registered after "9" never takes effect
  (`Schemas.TenDoesNotReplaceNine`); `Schemas.NewSchemaTakesEffect` says when one does.
- The default transform and enricher are described as applying to all events. They are looked
  up by exact type and reach only events whose type is "*" (`Stages.StagesChangeNothingIff`).
- Dead letter pages are ordered by creation time only, and each query orders letters of one
  creation time anew. Successive pages are sure to show every letter exactly once if and only if
  no page ends between two letters of the same creation time
  (`DeadLetters.PagesFitIffNoTieIsCut`).
- A dead letter is stored with a NULL processing result, which the Go type of that field cannot
  hold. A page is an error while it holds an unprocessed letter. Paging through the queue is
  sure to succeed if and only if every letter has been processed; it is sure to fail otherwise
  if no page ends inside a tie, while a page that does may leave the unprocessed letter out
  (`DeadLetters.ListingReadsIffAllProcessed`, `DeadLetters.TiedPagesCanMiss`).
- An event whose payload cannot be marshalled is lost to the dead letter queue too, which
  marshals the whole event (`Intake.EventProcessor.ProcessEvent`).
- The retry limit is compared with the count before the increment. If a round can be given up
  while the writes that follow still commit, a row is therefore FAILED after its maximum plus
  one failed rounds (`SingleWorker.ExactRetryAccounting`); if not, no row is ever FAILED
  (`Counting.CancelledRoundsLeaveNoTrace`).
- The insert of a dead letter reads its result without looking for the error that may end the
  reading, so it can report success although nothing was stored. `ProcessEvent` then returns the
  original error as if the event were in the queue, and the event is gone
  (`DeadLetters.DeadLetterRepository.Save`, `Intake.EventProcessor.ProcessEvent`).

## Model

| member | source | states |
|---|---|---|
| Mailbox.RunsAreMailboxRuns | internal/processor/outbox_processor.go:98-157 | every run of any number of workers is a run of an at-least-once mailbox that only accepts, delivers and forgets delivered letters; so each accepted row is still in the table or was delivered |
| Mailbox.StepSimulates | internal/repository/outbox_repository.go:84-229 | each single step, including crashes, lost writes and cleanup, is a mailbox step or invisible to it |
| Mailbox.BehavioursKeep | README.md:36 | the mailbox by itself never loses an accepted letter |
| Safety.RunIsSafe | internal/repository/outbox_repository.go:84-121 | in every reachable state rows have their original identity, a published time means an acknowledged send, a missing row was delivered, and the log of each row counts its acknowledged and ambiguous sends |
| Safety.EveryPayloadParses | internal/processor/outbox_processor.go:100-106 | no run of any number of workers takes the branch for an unparsable payload |
| Counting.DuplicateBound | internal/processor/outbox_processor.go:111-153 | for any number of workers, deliveries of a row never exceed the batches it was fetched in plus its ambiguous sends |
| Counting.NoPrematureGiveUp | internal/processor/outbox_processor.go:131-148 | the retry count is the number of committed increments and at most the failed rounds, and a row ever marked FAILED has seen at least its maximum plus one failed rounds, under any interleaving |
| Counting.StaleCountsAreLow | internal/processor/outbox_processor.go:140 | the retry count a worker judges by is never above the one in the table |
| Counting.CancelledRoundsLeaveNoTrace | internal/processor/outbox_processor.go:113-148 | if no write that follows an abandoned round commits, as after a cancellation, every row of every run has retry count zero and none is FAILED |
| LifeCycle.RowsOnlyAge | internal/repository/outbox_repository.go:84-192 | between any two moments: identity columns fixed, no return to PENDING, published time never cleared, retry count never lowered, new rows only under unused ids |
| LifeCycle.CleanupRemovesExactly | internal/repository/outbox_repository.go:195-229 | the cleanup step removes a row if and only if it is PUBLISHED with a published time before the cutoff, and changes no other |
| LifeCycle.FreshMarkSurvives | internal/repository/outbox_repository.go:84-229 | a row marked PUBLISHED now survives a cleanup whose cutoff is not after now |
| LifeCycle.SoloMarkedOnce | internal/repository/outbox_repository.go:97-104 | one worker: the published time is set exactly for PUBLISHED rows |
| LifeCycle.SoloFinalStays | internal/processor/outbox_processor.go:139-153 | one worker: a row that left PENDING never changes again, and only a PUBLISHED one can disappear |
| TwoWorkers.PublishedCanBecomeFailed | internal/processor/outbox_processor.go:83-153 | for every deliverable event, every budget and any two workers there is a run, all writes committing and nothing crashing, in which the row is PUBLISHED and later FAILED |
| TwoWorkers.PublishedIsFinalIff | internal/repository/outbox_repository.go:157-192 | for every set of workers, over all runs, over undisturbed ones, or over those in which no write after an abandoned round commits: PUBLISHED rows stay PUBLISHED if and only if it is the last kind of run, or there is at most one worker, or nothing can be sent |
| TwoWorkers.TwoReachTheBound | internal/processor/outbox_processor.go:131-148 | for every deliverable event and every budget two workers have an undisturbed run with as many failed rounds on its row as there can be, its maximum plus three |
| TwoWorkers.PublishedStaysWithoutTraces | internal/processor/outbox_processor.go:113-148 | if no write that follows an abandoned round commits, PUBLISHED rows stay PUBLISHED for any number of workers |
| Serial.SerialRunsAreSolo | internal/processor/outbox_processor.go:159-178 | a run of any number of workers whose calls never overlap is a run of one worker with the same table, histories and broker log, made of the same steps and with the same faults |
| Serial.SerialFinalStays | internal/processor/outbox_processor.go:139-153 | calls never overlap: a row that left PENDING never changes again, and only a PUBLISHED one can disappear |
| Serial.SerialMarkedOnce | internal/repository/outbox_repository.go:97-104 | calls never overlap: the published time is set exactly for PUBLISHED rows |
| Serial.SerialDuplicateBound | internal/processor/outbox_processor.go:151-153 | calls never overlap: at most one delivery plus lost marks plus ambiguous sends; exactly one for a PUBLISHED row without those |
| Serial.SerialAccounting | internal/processor/outbox_processor.go:134-145 | calls never overlap, failed rounds recorded: between rounds the retry count is the failed rounds, at most the maximum unless FAILED, exactly the maximum plus one if FAILED |
| Serial.SerialDeliveryOrder | internal/repository/outbox_repository.go:59-69 | calls never overlap, workers may crash at any point, inserts in time order, no abandoned round, PUBLISHED marks commit: the broker log is in creation order |
| Serial.SerialRowsSettle | internal/processor/outbox_processor.go:98-157 | workers that take turns, failed rounds and marks recorded, drain the outbox within the budget of one, and each row ends FAILED after exactly its budget of failed rounds or acknowledged exactly once |
| Serial.SerialWaitingBound | internal/repository/outbox_repository.go:59-69 | workers that take turns and may crash at any point, writes committing, attempt a pending row within B/batch + 1 completed calls of them all, B being the budget of one, however many newer rows arrive |
| SingleWorker.SoloRun | internal/processor/outbox_processor.go:98-99 | one worker: what remains of the batch is in the table exactly as fetched, whatever crashes or is lost |
| SingleWorker.SoloDuplicateBound | internal/processor/outbox_processor.go:151-153 | one worker: at most one delivery plus lost marks plus ambiguous sends; exactly one for a PUBLISHED row without those |
| SingleWorker.ExactRetryAccounting | internal/processor/outbox_processor.go:134-145 | one worker whose failed rounds are recorded, whatever marks are lost and wherever else it crashes: between rounds the retry count is the failed rounds, at most the maximum unless FAILED, exactly the maximum plus one if FAILED |
| Destinations.RowsParse | internal/service/publisher.go:40-57 | every reachable row parses to an event with the row's ID and type |
| Destinations.RouteAndBudgetAgree | internal/processor/outbox_processor.go:109 | the type a worker routes by is the type it takes the budget from |
| Destinations.DestinationSoundness | internal/processor/outbox_processor.go:181-191 | each message carries its row's event at the destination the fallback chain gives; a Kafka client delivers no "rabbitmq" row and a RabbitMQ client only such rows |
| Destinations.DuplicatesAgree | internal/processor/outbox_processor.go:111-122 | all messages of a row are equal: same event, same destination |
| Destinations.UnreachableRowsStay | internal/broker/kafka.go:118-120 | a row routed to the broker the client does not speak to is never delivered, never PUBLISHED and never removed |
| Order.DeliveryOrder | internal/repository/outbox_repository.go:59-69 | one worker that may crash at any point, inserts in time order, no abandoned round, PUBLISHED marks commit: the broker log is in creation order across batches |
| Budget.AllowanceOfOne | internal/processor/outbox_processor.go:134-145 | for one worker the budget of a row is the failed rounds it can still absorb: maximum plus one less its count, and one beyond the limit |
| Budget.PotentialStep | internal/processor/outbox_processor.go:131-153 | whatever workers overlap, no step adds to the rounds that may still happen on a row, and the end of a round takes one off |
| Budget.LiabilityAtRest | internal/service/routing.go:72-84 | while all workers are idle the rounds that may still happen are given by the table and the number of workers alone |
| Budget.RoundsArePaidFor | internal/processor/outbox_processor.go:131-148 | conservation over whole runs of overlapping workers whose writes commit, with crashes and inserts at any moment: rounds worked off plus rounds that may still happen never exceed those at first plus what inserts granted |
| Budget.FetchSize | internal/repository/outbox_repository.go:56-81 | a fetch returns all pending rows or the limit, whichever is less |
| Budget.CallLowersOutstanding | internal/processor/outbox_processor.go:79-95 | a completed call without inserts, its writes committing, lowers the outstanding budget by at least the smaller of batch size and pending rows |
| Draining.DrainBound | internal/processor/outbox_processor.go:98-157 | any number of overlapping workers that may crash at any point, writes committing: after as many completed calls as there is budget outstanding no row is PENDING, for every pattern of publish failures |
| Budget.ReachableWorks | internal/processor/outbox_processor.go:56-61 | the premises of the bounds hold in every state of any run of any workers, also after crashes and lost writes |
| Waiting.WaitingBound | internal/repository/outbox_repository.go:59-69 | any number of overlapping workers that may crash at any point, writes committing: a pending row has been through a publish round after B/batch + 1 completed calls, B being the budget of rows not created later, however many newer rows arrive |
| Overlap.DeliveriesPerWorker | internal/processor/outbox_processor.go:111-153 | in every run, deliveries of a row never exceed the number of workers plus its lost marks plus its ambiguous sends |
| Overlap.RoundsPerWorker | internal/processor/outbox_processor.go:131-148 | if failed rounds are recorded, a row never sees more of them than its maximum less one and two for each worker |
| Overlap.OverlappingRowsSettle | internal/processor/outbox_processor.go:98-157 | any number of overlapping workers, failed rounds and marks recorded: once completed calls number the outstanding budget each row is FAILED after at least its budget of failed rounds or was acknowledged, at most once per worker |
| Outcome.EveryRowSettles | internal/processor/outbox_processor.go:98-157 | one worker, failed rounds and marks recorded: after draining, each accepted row is FAILED with exactly its budget of failed rounds and no acknowledged send, or was acknowledged exactly once |
| Routing.MaxRetries | internal/service/routing.go:72-84 | the budget is at least one whatever is configured |
| Routing.ResolversTakeFirstSet | internal/service/routing.go:20-84 | all five resolvers are "first set value" of the chain own route, defaults, built-in |
| Outbox.OutboxRepository.Save | internal/repository/outbox_repository.go:26-53 | a save that takes effect adds the entry under a fresh id without a published time |
| Outbox.OutboxRepository.FindPendingEntries | internal/repository/outbox_repository.go:56-81 | distinct PENDING rows as they are in the table, oldest first, up to the limit; a PENDING row is left out only if the limit is reached and none of the answer is newer; a negative limit is an error |
| Outbox.OutboxRepository.MarkAsPublished | internal/repository/outbox_repository.go:84-121 | matches on the id alone and overwrites whatever status is there |
| Outbox.OutboxRepository.IncrementRetryCount | internal/repository/outbox_repository.go:124-154 | adds one to the current count in the table, not to the fetched one |
| Outbox.OutboxRepository.MarkAsFailed | internal/repository/outbox_repository.go:157-192 | sets the status and keeps the published time |
| Outbox.OutboxRepository.CleanupOldEntries | internal/repository/outbox_repository.go:195-229 | if it takes effect, an id leaves the table if and only if its row is PUBLISHED with a published time before `now - olderThan`; every other row is as it was |
| Outbox.BrokerClient.PublishToKafka | internal/broker/kafka.go:64-115 | a message may be in the log although an error is returned; a RabbitMQ client only returns an error |
| Outbox.BrokerClient.PublishToRabbitMQ | internal/broker/rabbitmq.go:98-144 | a message may be in the log although an error is returned; a Kafka client only returns an error |
| OutboxWorker.OutboxProcessor.PublishOnce | internal/processor/outbox_processor.go:115-122 | "rabbitmq" leads to the exchange and needs a RabbitMQ client, every other name to the topic and needs a Kafka client; success if and only if the matching client acknowledges; one message at the resolved destination unless refused |
| OutboxWorker.ActualIs | internal/processor/outbox_processor.go:115-122 | the answer the protocol prescribes for a try, by the broker name and the kind of client alone |
| OutboxWorker.OutboxProcessor.PublishWithRetry | internal/processor/outbox_processor.go:112-129 | fails exactly if the client does not match the broker name or no try is acknowledged; stops at the first acknowledgement; the log gains the messages of the tries made, which are protocol attempts |
| OutboxWorker.OutboxProcessor.ProcessEntry | internal/processor/outbox_processor.go:100-153 | the table and the log afterwards, by payload, broker name, client, answers and fates of the writes: sent up to the first acknowledgement and marked PUBLISHED, or given up, counted, and at the limit marked FAILED; these are exactly the protocol steps from parsing to the mark |
| Effects.MessagesCounted | internal/processor/outbox_processor.go:111-129 | what the messages of a round are: none with the wrong client, one per ambiguous answer without an acknowledgement, and otherwise one for each answer up to the first acknowledgement that is not a refusal |
| Effects.EntryComesTo | internal/processor/outbox_processor.go:98-157 | what an entry comes to, by payload, broker name, client and the answers of the broker alone: with the matching client and an acknowledged try the log gains one message for each try up to the first acknowledgement that was not refused, and the row is PUBLISHED at the time of the mark; else the log gains the ambiguous sends only (none with the wrong client), the round is counted, and the row is FAILED if its fetched count had reached the limit; an unparsable payload is counted and nothing is sent |
| Effects.AnsweredIsPublished | internal/processor/outbox_processor.go:98-157 | if the broker acknowledges every fetched entry and every mark takes effect, each fetched row is PUBLISHED at the time of its own mark and its event is in the log at its destination |
| OutboxWorker.OutboxProcessor.SendEntry | internal/processor/outbox_processor.go:108-153 | after parsing: the tries stop at the first acknowledgement, the log gains their messages, and the row is marked PUBLISHED if one was acknowledged and counted as failed otherwise |
| OutboxWorker.OutboxProcessor.RecordFailure | internal/processor/outbox_processor.go:131-148 | an abandoned round adds one to the count in the table, and the row is marked FAILED exactly if the fetched count had reached the limit; no other row changes |
| OutboxWorker.OutboxProcessor.ProcessBatch | internal/processor/outbox_processor.go:98-157 | every entry is worked off by its own round, in order: its row is as that round leaves it, rows outside the batch are untouched, and each acknowledged message is in the log |
| OutboxWorker.OutboxProcessor.ProcessPendingEntries | internal/processor/outbox_processor.go:79-95 | a call fetches the oldest PENDING rows and works off each; if every fetched row has an acknowledged try and every mark takes effect, all of them end PUBLISHED and in the log; a failed fetch changes nothing |
| OutboxWorker.OutboxProcessor.Start | internal/processor/outbox_processor.go:49-70 | ticks take the steps of their calls; with committing writes, as many ticks with a successful fetch as there is budget outstanding leave no PENDING row |
| OutboxWorker.TicksDrain | internal/processor/outbox_processor.go:55-61 | the drain bound in terms of the processor's own ticks |
| Publisher.EventPublisher.PublishEvent | internal/service/publisher.go:36-63 | one PENDING row with count zero and the event's ID and type, or no change |
| Publisher.EventPublisher.PublishEventBatch | internal/service/publisher.go:66-73 | on an error at index i the events before i are stored, in order, under increasing ids, existing rows untouched; the failing one only if its save took effect |
| Publisher.EventPublisher.PublishWithRetry | internal/processor/event_processor.go:244-251 | fails exactly if the event cannot be encoded or no save reports success; the rows left are PENDING rows of the event, one for each save that takes effect up to the first success, and no other row changes |
| Publisher.StoredAtExactly | internal/processor/event_processor.go:244-251 | the rows the loop leaves are, in order, those of exactly the tries that took effect with no success before them |
| Publisher.SavedIff | internal/processor/event_processor.go:244-251 | the loop succeeds if and only if some save reports success |
| Publisher.BatchIsStored | internal/service/publisher.go:66-73 | the inserts of a batch leave exactly its rows beside the old ones |
| Publisher.StoredRows | internal/service/publisher.go:36-73 | what stored rows are: PENDING, count zero, the event's ID and type, its encoding, the time of its save, under consecutive fresh ids |
| Publisher.RowsLeft | internal/processor/event_processor.go:244-251 | success leaves at least one row, with atomic saves exactly one; giving up leaves none with atomic saves |
| Schemas.VersionTotal | internal/repository/schema_repository.go:56-58 | the version order is total |
| Schemas.VersionAntisymmetric | internal/repository/schema_repository.go:56-58 | versions equal in the order are equal strings |
| Schemas.VersionTransitive | internal/repository/schema_repository.go:56-58 | the version order is transitive |
| Schemas.VersionOrder | internal/repository/schema_repository.go:56-58 | a version is at most another if and only if it is a prefix of it or has the smaller character where they first differ |
| Schemas.LatestIsUnique | config/sql/schema.sql:9 | with unique type and version the latest schema of a type is determined |
| Schemas.LatestNeverGoesDown | internal/repository/schema_repository.go:48-73 | over any sequence of registrations the latest version of a type never goes down in string order |
| Schemas.TypeStays | internal/service/validator.go:32-34 | a type that has a schema keeps having one, so the validator's no-schema branch cannot follow a successful lookup |
| Schemas.NewSchemaTakesEffect | internal/repository/schema_repository.go:48-73 | a registered schema becomes the latest if and only if its version is not below the latest one so far, as strings |
| Schemas.TenDoesNotReplaceNine | internal/repository/schema_repository.go:56-58 | version "10" after "9" is not the latest |
| Schemas.SchemaRepository.Save | internal/repository/schema_repository.go:75-96 | append only; refused if and only if a row with that type and that version exists |
| Schemas.RegisteredExactly | config/sql/schema.sql:2-10 | what a sequence of registrations leaves: the old rows, then only registered schemas, with every registered type and version present and none twice |
| Schemas.TypeAfterwards | internal/repository/schema_repository.go:75-96 | after registrations a type has a schema if and only if it had one or one of it was registered |
| Schemas.SchemaRepository.FindByType | internal/repository/schema_repository.go:48-73 | a schema of the type with the greatest version; none exactly if no row has the type |
| Schemas.SchemaRepository.FindByTypeAndVersion | internal/repository/schema_repository.go:24-45 | the schema of exactly that type and version, none exactly if there is none |
| Stages.TransformTimes | internal/processor/transformer.go:90-115 | a new event with new maps; no existing object is written |
| Stages.EnrichStamp | internal/processor/transformer.go:123-141 | a new event with new metadata sharing the payload map; no existing object is written |
| Stages.EventTransformer.Transform | internal/processor/transformer.go:41-51 | without a transformation of the event's own type the same object comes back |
| Stages.EventEnricher.Enrich | internal/processor/transformer.go:74-84 | without an enricher of the event's own type the same object comes back |
| Stages.TransformIsIdempotent | internal/processor/transformer.go:105-112 | no top-level time value is left, other values are kept, and twice is once |
| Stages.StagesKeepIdentity | internal/processor/transformer.go:86-143 | ID, type, timestamp, payload keys and all metadata but `processed_at` survive both stages; for type "*" the stamp is set and exactly the time values become text, for every other type nothing changes |
| Stages.StagesChangeNothingIff | internal/processor/transformer.go:45-48 | the stages change nothing exactly for types other than "*", or for "*" with no time value and the stamp already there |
| Intake.EventProcessor.constructor | internal/processor/event_processor.go:62-91 | the default stages are registered under "*" and nothing else is, so they reach only events of that type |
| Intake.EventProcessor.ValidatePayloadSize | internal/processor/event_processor.go:272-289 | passes exactly if the payload can be marshalled and its length is at most the maximum |
| Intake.EventProcessor.FindSchema | internal/processor/event_processor.go:150-167 | the first query that is answered decides, a missing schema is not looked up again: "no schema" exactly if the type had none and none was registered up to that query; giving up exactly if every query failed; nothing registered later is in the table |
| Intake.EventProcessor.Validate | internal/service/validator.go:25-69 | the first try decides that finds a schema the library can use: accepted or rejected by the schema in force then; every earlier try failed or found an unusable schema in force; giving up exactly if all did |
| Intake.EventProcessor.ValidateSchema | internal/processor/event_processor.go:146-197 | the two loops one after the other, with the query and the try that decided, and what each error implies about the schema table |
| Intake.EventProcessor.HandleError | internal/processor/event_processor.go:254-269 | one dead letter with the event as received if the insert takes effect; the wrapped error if encoding or the insert reports one |
| Intake.EventProcessor.Prepare | internal/processor/event_processor.go:104-132 | an event that gets through fitted the size limit and was accepted by the schema in force at some moment of the call; the check and the try that decided, in order |
| Intake.EventProcessor.Publish | internal/processor/event_processor.go:135-138 | fails exactly if the event cannot be encoded or no save reports success; rows are left only by saves that take effect |
| Intake.EventProcessor.RunStages | internal/processor/event_processor.go:104-141 | all stages up to the outbox: the first check that fails decides the error, in the order of the code; rows only for admitted events |
| Intake.EventProcessor.ProcessEvent | internal/processor/event_processor.go:94-143 | which check, and which of its tries, decided; success leaves at least one row and no letter, with atomic saves exactly one row; failure with atomic saves leaves no row, and one letter exactly if the event can be encoded and the insert of the letter takes effect, which is exactly if the original error is returned when that insert reports truly; rows come only from admitted events; each error says what held during the call; an unmarshalable payload never yields a dead letter; the event object is unchanged |
| Intake.OutcomeInOrder | internal/processor/event_processor.go:94-143 | the outcome of a call spelled out: size, then the first answered lookup, then the first usable verdict, then the saves; each later check is reached only if the earlier ones passed, and its outcome depends on the schemas registered up to then |
| Intake.AtomicIntake | internal/processor/event_processor.go:135-142 | with at most one effective save the outbox gains exactly that PENDING row, or is unchanged |
| DeadLetters.PagesCoverTheListing | internal/repository/dead_letter_repository.go:59-84 | in one fixed order the pages at offsets 0, L, 2L, ... give every letter exactly once, newest first |
| DeadLetters.PageIsSlice | internal/repository/dead_letter_repository.go:59-67 | a page is the stretch of the listing from the offset on, up to the limit |
| DeadLetters.PagesFitIffNoTieIsCut | internal/repository/dead_letter_repository.go:59-84 | each query ordering the ties anew, the pages give every letter exactly once if and only if no page ends between two letters of the same creation time |
| DeadLetters.ListingFixedIffTimesDiffer | internal/repository/dead_letter_repository.go:65-67 | the order of a query is determined if and only if all creation times differ |
| DeadLetters.TiedPagesCanMiss | internal/repository/dead_letter_repository.go:65-67 | with a cut tie the pages can show one letter twice and miss the other, and so read without error although that one is unprocessed |
| DeadLetters.ListingReadsIffAllProcessed | internal/models/events.go:54-64 | each query ordering the ties anew, reading all pages always succeeds if and only if every letter has been processed; if no tie is cut, each single reading succeeds if and only if that is so |
| DeadLetters.ListingIsNewestFirst | internal/repository/dead_letter_repository.go:59-84 | the listing is sorted by time, newest first, and holds every row once |
| DeadLetters.LettersAreKept | internal/service/dlq.go:27-72 | no history of sends and reprocesses removes a letter or changes what it recorded |
| DeadLetters.DeadLetterRepository.Save | internal/repository/dead_letter_repository.go:25-56 | appends a letter whose processing columns are NULL if the insert takes effect; the error it returns and the id it sets depend only on the answer read back, which may say less |
| DeadLetters.DeadLetterRepository.FindEntries | internal/repository/dead_letter_repository.go:59-84 | a page of some newest-first order in which every letter has a processing result; an error for a failed query or a negative limit or offset, and otherwise only if some such page has a letter without one |
| DeadLetters.DeadLetterRepository.MarkAsProcessed | internal/repository/dead_letter_repository.go:87-111 | if it takes effect, every letter with that id has the given time and result, every other letter is as it was, and none is added or removed |
| DeadLetters.DeadLetterService.SendToDeadLetterQueue | internal/service/dlq.go:27-55 | stores the encoded event with its ID, type and reason if it can be encoded and the insert takes effect; reports the errors of encoding and of the insert |
| DeadLetters.DeadLetterService.GetDeadLetterEntries | internal/service/dlq.go:58-60 | a page of some newest-first order, under the same errors |
| DeadLetters.DeadLetterService.ReprocessEntry | internal/service/dlq.go:63-72 | every letter with that id is marked processed now with the result "Manually reprocessed", every other one is as it was; the event is not processed again |

## Left out

- HTTP server, authentication, rate limiting, configuration loading, process start-up, metrics and log lines: no property of the protocol depends on them.
- Broker connections and wire format: a client is its outcomes and the destination kind it supports.
- The processor's ticker, stop channel, mutex and `isProcessing` flag: `Start` is a sequence of calls. The lock methods are never called; `Serial` says what they would give.
- DeadLetters.DeadLetterRepository.Save: the id read back for a row that was then not stored is given to the next row again, where a database sequence would skip it.
- Outbox.OutboxRepository.Save: ids are consecutive; gaps that a database sequence may leave are not modelled, since only order and freshness of ids are used.
- Publisher.EventPublisher.PublishEventBatch: other writers between two saves of a batch are not part of this contract; the protocol's inserts may interleave freely.
- OutboxWorker.OutboxProcessor.ProcessPendingEntries: the methods run without interference; interleavings with inserts, cleanups and other workers are covered by the protocol steps the method is proved to take.
- Intake.EventProcessor.ProcessEvent: other sessions may register schemas during the call, but do not write the outbox or the dead letter queue during it.
- Stages.EventTransformer.Transform: a registry holds only the one transformation the service defines, and the enricher likewise; user-supplied stages that return errors are not modelled, because nothing registers any.
- Nil maps and empty maps read the same; their different JSON texts (null and {}) are not distinguished.
- Column widths, the 32-bit range of the retry count and time zones of timestamp columns: a write the database refuses is a write that does not commit.
- `CreateIndexes`, the connection pool and `WithTransaction`: they change no row.
