# Halcyon job-lease protocol: a verified model

Halcyon accepts PDF contracts over HTTP, keeps one row per job in a ledger, wakes workers through a
disposable queue and sends each document through a capped inference service. The ledger is meant to be the
only authority and the queue a hint. This project models that core in Dafny and proves what it guarantees,
together with the small merger that keeps `.env` files in step with the non-secret template.

Verify everything with `dafny verify dfyconfig.toml`.

## How it is built

| file | content |
|---|---|
| `Basics`, `Ids` | duplicate-free sequences, filtering; UUIDs, their text and how it reads back |
| `Jobs` | job records, the transition table, the pure operations on one record |
| `Queue` | the in-memory queue, the Valkey two-list queue, and how far the second refines the first |
| `Ledger` | the in-memory ledger class: rows in insertion order, attempt history, reconcile scan, slot pool |
| `Reconcile` | one reconcile pass: scan, then requeue what the queue is missing |
| `SqlLedger` | the PostgreSQL reconciler and exactly when it agrees with the in-memory one |
| `Faults`, `Handler`, `Outcomes` | injected outcomes; `process_one` as a program counter with one step per await; what an attempt comes to, by its draw |
| `Worker`, `Drain`, `Recovery`, `Sequential` | the worker class, the drain loop, recovery from the ledger whatever is stuck in processing; scripts of what one worker does |
| `Protocol` | the whole system as a state machine with an inductive invariant |
| `Guarantees`, `Wakes`, `Lease` | what holds over every run: safety, history, wakes job by job, lease arithmetic |
| `Progress` | termination under concurrency |
| `Authority` | the same protocol with an arbitrary queue: the lease alone keeps claims apart |
| `Refinement` | what one worker does, a drain and the whole recovery included, is a run of the state machine |
| `Storage`, `Uploads` | generated keys, ownership, the upload path and its compensating delete |
| `Arrivals` | what sequences of uploads leave in ledger and queue, and the order in which reconciling wakes them |
| `Lifecycle` | uploads are runs of the state machine; uploads, loss of the queue and recovery from end to end |
| `EnvFile`, `EnvStability`, `EnvText` | `parse_env` and `merge` as line-level parse and print; where each line lands and when merge is idempotent; the merger told from its texts, secret names included |

There are two layers. The classes `InMemoryJobRepository`, `InMemoryJobQueue`, `ValkeyJobQueue`,
`InMemoryObjectStorage`, `SqlAlchemyJobRepository`, `AppState` and `Worker` update their fields as the source's
classes do; each method is proved equal to a function of the old state, and the laws are proved about those
functions. Above them `Protocol` interleaves uploads, the scanner, any number of handlers and reconcilers at
every await, a clock, lost queue entries and handlers that die. The handler step is the same function in
both layers. The drain and recovery methods report what they did as a script (`Sequential.Work`), and `Refinement`
shows that every such script is a run of the state machine with the same end, so that what the worker leaves
behind is reachable and every guarantee applies to it.

## Assumptions

- An id is handled only after it was popped, as the worker loop does, and an uploaded job id is new to the ledger.
- Each ledger, queue and slot operation is atomic; everything between two of them may interleave.
- A handler may die at any await except while it frees its slot, and an exception other than `InferenceError`
  (or a missing PDF) may escape the inference phase; both count as deaths in the history variable `deaths`.
  "Crash-free" below means none happened to that job.
- Queue loss may drop any pending id, and a processing id only when no live handler owns it. `Authority` lifts this:
  there the queue may become anything at any moment.
- Times are whole seconds; what the inference service answers and how long anything takes is arbitrary.
- `max_retries`, limits and slot counts are natural numbers, as the settings' ranges have it.
- The fields of a job record that no operation changes are grouped in `info`.
- Metadata names are lower-cased as ASCII; no other character lower-cases into a letter of `vendor-id`.
- Queue entries are UUIDs; the Valkey queue's text encoding of them is injective (`Ids.TextInjective`).

## Findings

Where the code and its own documentation differ, the model follows the code.

- `save` overwrites blindly, though its port documents optimistic status checks (app/src/halcyon_sim/jobs.py:285-286).
  A handler that saves after its lease was released can therefore turn a DEAD_LETTER row into SUCCEEDED, or a RETRY row
  into any outcome. `Guarantees.StepRows` shows these are the only moves outside the table, and `Lease.ConformanceIff`
  shows they are possible exactly when work + inference + completion is not below the lease. The documented budget
  (docs/client/assumption-log.md:207) is below it, but nothing enforces that budget: the 30 seconds of completion are
  no setting, `httpx.Timeout` bounds connecting, writing, reading and waiting for a connection separately rather than the
  whole call (app/src/halcyon_sim/inference.py:90), and validation accepts a timeout longer than the lease
  (`Lease.DefaultsConformSettingsNeedNot`).
- Nothing but the lease makes the ledger the authority. With an arbitrary queue, claims are exclusive, attempt counts never
  fall, terminal jobs stay terminal, claims stay under the ceiling and the ledger follows the table exactly when work +
  inference + completion is below the lease (`Authority.AuthorityIff`). Beyond that bound two handlers can hold claims on
  one job, the late save of the first sets `attempt_count` back, or revives a dead-lettered job, which can then be
  claimed more often than its ceiling allows. This is also what a queue that offers an id twice can come to.
- The design documents say the attempt row is written before inference
  (docs/architecture/part1-production-platform.md:205); the code writes it after the save, so an attempt that ends by
  slot exhaustion, or whose handler dies, has no history row. `Guarantees.HistoryConservation` accounts for each.
- `claim_job` consults no attempt ceiling. It holds nevertheless in every run (`Guarantees.AttemptCeiling`).
- A handler that dies between pop and acknowledge leaves its id in the queue's processing entries, where
  `requeue_if_missing` refuses it: the job is not run again until the queue loses that entry
  (`Guarantees.StrandedForever`). This includes a missing PDF and a response whose body is not JSON
  (app/src/halcyon_sim/inference.py:146), whose exceptions are not `InferenceError` (`Guarantees.EscapeStrands`); a JSON body
  of the wrong shape is an `InferenceError` and dead-letters the job.
- Stranded ids hold up other jobs too. The reconcile scan counts a stranded ready row towards its batch and the queue then
  refuses it, so a pass wakes nothing exactly when all of the first `limit` ready rows are held
  (`Reconcile.PassIsIdleIff`). Recovery leaves a job unsettled exactly when at least `limit` stranded ready rows precede it in
  insertion order (`Recovery.UnsettledIff`).
- `ValkeyJobQueue.enqueue` does not look at the processing list. It agrees with the in-memory queue exactly for ids that
  are in neither list or newest in pending (`Queue.StepsAgreeIff`); otherwise an id can be offered while it is
  being processed (`Queue.ValkeyOffersTwice`).
- The two reconcilers leave the same ledger exactly when the batch has room for every expired row and the in-memory scan
  reaches all of them, and list the same candidates exactly when, moreover, every ready row within the batch is older than
  every ready row beyond it (`SqlLedger.ReconcilersAgreeIff`). A limit of at least the table size always suffices; a limit of
  1 does not for a waiting row in front of an expired one (`SqlLedger.SmallBatchesDiffer`).
- An upload whose insert takes effect in the database but raises all the same, because the confirmation of the commit is
  lost, deletes the PDF of a live row. With fresh ids that is the only way to lose one
  (`Uploads.RowObjectIntegrity`); an upload that reused a job id of the same vendor would be another
  (`Uploads.UploadKeepsObjectsIff`).
- The other way round, an upload can leave a PDF that belongs to no row: when the put stores it and raises all the same,
  for which there is no compensating delete, or when the insert leaves no row and the delete fails as well. With fresh ids
  there is no third way (`Uploads.ObjectRowIntegrity`).
- `merge` accepts any dictionary, and is idempotent exactly when every key has the form of a key and is not secret and every
  value is one line, with at most a carriage return at its end (`EnvStability.MergeIsIdempotentIff`). `parse_env` yields
  only such updates, but `merge` itself does not check: it would append a secret or ill-formed key again, or break a value
  with a line break into more lines again, on every call.

## Model

Functions that only compute have no row of their own: the row is that of the method or lemma that states
what they achieve.

| member | source | states |
|---|---|---|
| Ids.TextInjective | app/src/halcyon_sim/storage.py:55-58 | different UUIDs never print alike, so ids can be compared and embedded as text |
| Ids.TextReads | app/src/halcyon_sim/storage.py:55-58 | a printed UUID is 32 lower-case hexadecimal digits grouped 8-4-4-4-12 by dashes, and the digits read back as its number |
| Jobs.OperationsFollowTable | app/src/halcyon_sim/jobs.py:100-259 | each operation raises exactly outside its states, naming the refused move; one that does not raise follows an edge of the table, leads where it should by the ceiling, keeps identity and the row invariant; only a claim uses an attempt; lease and summary end as documented |
| Jobs.TableIsExact | app/src/halcyon_sim/jobs.py:100-116 | the table has exactly the edges that some operation takes; claimable states are those with an edge to RUNNING, terminal ones those without any edge |
| Queue.InMemoryJobQueue.Offer | app/src/halcyon_sim/queue.py:47-49 | appends an id that is in neither structure, else changes nothing |
| Queue.InMemoryJobQueue.Pop | app/src/halcyon_sim/queue.py:51-57 | moves the oldest pending id to processing, or answers none |
| Queue.InMemoryJobQueue.Ack | app/src/halcyon_sim/queue.py:59-62 | removes the id from both structures and nothing else |
| Queue.InMemoryJobQueue.Requeue | app/src/halcyon_sim/queue.py:64-68 | appends an absent id and says whether it did |
| Queue.AcknowledgeFacts | app/src/halcyon_sim/queue.py:59-62 | acknowledging removes exactly that id, leaves the others in their order, and keeps pending distinct and apart from processing |
| Queue.ValkeyJobQueue.Offer | app/src/halcyon_sim/queue.py:79-86 | removes the id from pending and pushes it at the end, whatever processing holds |
| Queue.ValkeyJobQueue.Pop | app/src/halcyon_sim/queue.py:88-100 | moves the head of pending to the end of processing, or answers none |
| Queue.ValkeyJobQueue.Ack | app/src/halcyon_sim/queue.py:102-104 | removes every copy of the id from both lists |
| Queue.ValkeyJobQueue.Requeue | app/src/halcyon_sim/queue.py:106-117 | pushes an id found in neither list and says whether it did |
| Queue.StepsAgreeIff | app/src/halcyon_sim/queue.py:40-117 | on related queues, one operation gives the same answer and related queues again if and only if it is not an enqueue of an id that is held elsewhere than at the end of pending |
| Queue.ValkeyRefinesMemory | app/src/halcyon_sim/queue.py:40-117 | over every sequence of operations with safe enqueues both queues answer alike, hold equal pending sequences, and Valkey's processing list lists the processing set without duplicates |
| Queue.ValkeyOffersTwice | app/src/halcyon_sim/queue.py:79-86 | acknowledge, requeue by a reconciler, pop, then the handler's enqueue: Valkey offers an id that is being processed, the in-memory queue does not |
| Ledger.InMemoryJobRepository.Insert | app/src/halcyon_sim/jobs.py:323-328 | refuses a known id and changes nothing, else puts the row at the end of the insertion order |
| Ledger.InMemoryJobRepository.Save | app/src/halcyon_sim/jobs.py:339-341 | overwrites the row without looking, keeping its position |
| Ledger.InMemoryJobRepository.ClaimJob | app/src/halcyon_sim/jobs.py:343-355 | claims a present claimable row, else answers none and changes nothing |
| Ledger.InMemoryJobRepository.RecordAttempt | app/src/halcyon_sim/jobs.py:357-358 | appends to the history |
| Ledger.InMemoryJobRepository.ListReconcileCandidates | app/src/halcyon_sim/jobs.py:360-377 | the loop computes the scan whose specification is CandidatesAreFirstReady |
| Ledger.InMemoryJobRepository.AcquireInferenceSlot | app/src/halcyon_sim/jobs.py:379-389 | takes the least free slot, or none exactly when all are held |
| Ledger.InMemoryJobRepository.ReleaseInferenceSlot | app/src/halcyon_sim/jobs.py:391-392 | frees that slot and no other |
| Ledger.LeastFree | app/src/halcyon_sim/jobs.py:385-389 | the least slot not held, none only if every slot is held |
| Ledger.CandidatesAreFirstReady | app/src/halcyon_sim/jobs.py:360-377 | for any limit the candidates are the first `limit` rows, in insertion order, that are claimable or become so by expiry; the visited rows are released if expired, every other row is untouched |
| Ledger.VisitedIsLeast | app/src/halcyon_sim/jobs.py:363-376 | the scan stops at the first row that completes the batch, or at the end |
| Ledger.CandidateFacts | app/src/halcyon_sim/jobs.py:360-377 | the scan keeps the table invariant, each candidate is the row the ledger now holds, never more than `limit` |
| Ledger.ScanAgain | app/src/halcyon_sim/jobs.py:360-377 | scanning again at the same moment finds the same and changes nothing |
| Reconcile.RequeueFacts | app/src/halcyon_sim/worker.py:207-213 | requeueing only appends the candidates that were missing and counts them |
| Reconcile.RequeueInOrder | app/src/halcyon_sim/worker.py:207-213 | candidates that the queue is missing are appended in their order and counted |
| Reconcile.PassAppends | app/src/halcyon_sim/worker.py:201-213 | a pass appends, of the first `limit` ready rows in insertion order, exactly those that the queue is missing, and returns their number |
| Reconcile.ReconcileRestoresWakes | app/src/halcyon_sim/worker.py:201-213 | after one pass, whatever the queue lost, the first `limit` ready rows are claimable and held by the queue, and only claimable rows were added |
| Reconcile.ReadyHeldIff | app/src/halcyon_sim/worker.py:201-213 | a ready row is held after a pass if and only if it was held before or is among the first `limit` ready rows |
| Reconcile.PassIsIdleIff | app/src/halcyon_sim/worker.py:201-213 | a pass requeues nothing if and only if all of the first `limit` ready rows are held |
| Reconcile.ReconcileIsIdempotent | app/src/halcyon_sim/worker.py:201-213 | a second pass at the same moment requeues nothing and changes nothing, for any limit |
| SqlLedger.SqlAlchemyJobRepository.ListReconcileCandidates | app/src/halcyon_sim/jobs_sql.py:223-245 | releases exactly the rows its first query answered, any legal answer, then answers the second query over the new rows: claimable rows, each once, oldest update first, and all of them unless the batch is full |
| SqlLedger.SqlAlchemyJobRepository.ReleaseExpired | app/src/halcyon_sim/jobs_sql.py:234-237 | the loop releases exactly the rows it is given |
| SqlLedger.LedgersAgreeIff | app/src/halcyon_sim/jobs_sql.py:223-245 | for any limit from 1, whatever rows the query answers, both reconcilers leave the same ledger if and only if at most `limit` rows are expired and none stands beyond the in-memory scan |
| SqlLedger.CandidatesAgreeIff | app/src/halcyon_sim/jobs_sql.py:239-245 | over that ledger they list the same candidates, whatever the query answers, if and only if every ready row within the batch is older than every ready row beyond it |
| SqlLedger.ReconcilersAgreeIff | app/src/halcyon_sim/jobs_sql.py:223-245 | the two conditions together are exact for the whole pass |
| SqlLedger.LedgersAgree | app/src/halcyon_sim/jobs_sql.py:223-245 | in particular the ledgers agree for any limit of at least the row count |
| SqlLedger.ReconcilersAgree | app/src/halcyon_sim/jobs_sql.py:223-245 | and so do the candidates, each once, in their own orders |
| SqlLedger.SqlAlchemyJobRepository.ClaimJob | app/src/halcyon_sim/jobs_sql.py:186-208 | claims as the in-memory ledger does |
| SqlLedger.SqlAlchemyJobRepository.SaveRow | app/src/halcyon_sim/jobs_sql.py:176-184 | overwrites a known row, refuses an unknown one |
| Handler.ProcessOneIdle | app/src/halcyon_sim/worker.py:95-102 | an id that cannot be claimed is only acknowledged |
| Handler.ProcessOneRaises | app/src/halcyon_sim/worker.py:155-194 | when an exception escapes, the claim is all that remains: slot freed, nothing saved, recorded or acknowledged |
| Handler.ProcessOneSettles | app/src/halcyon_sim/worker.py:92-194 | otherwise exactly this row, one history entry (none on slot exhaustion) and this wake item change, and the id pends again iff the row is RETRY |
| Handler.ProcessOneVerdict | app/src/halcyon_sim/worker.py:112-192 | the row is SUCCEEDED exactly on an answer, RETRY exactly on a retryable fault with an attempt left, else DEAD_LETTER; summary, lease, timestamp and history row say why |
| Handler.ProcessOneEffect | app/src/halcyon_sim/worker.py:92-194 | over all outcomes: held slots are restored, other rows untouched, table and queue invariants kept |
| Outcomes.ProcessOneByDraw | app/src/halcyon_sim/worker.py:112-192 | process_one by the draw of the job: below the timeout rate the injected timeout, up to the sum of the rates the injected failure, above it slot exhaustion or the reply; status, summary and history row written out for each, the error kinds by name |
| Worker.Worker.ProcessOne | app/src/halcyon_sim/worker.py:92-194 | the method has the effect of the handler's steps run to the end, and tells exactly when an exception escapes |
| Worker.Worker.ReconcileOnce | app/src/halcyon_sim/worker.py:201-213 | the loop computes the reconcile pass and the count it returns |
| Worker.Worker.Infer | app/src/halcyon_sim/worker.py:155-194 | the part under a slot: settles as the answer calls for, or lets an exception escape, and frees the slot on every exit |
| Drain.ProcessOneDrains | app/src/halcyon_sim/worker.py:92-194 | a crash-free process_one uses up an attempt of a claimable row or only shortens the queue |
| Worker.Worker.DrainQueue | app/src/halcyon_sim/worker.py:61-69 | popping and processing one id after another until nothing pends terminates; waiting claimable jobs end terminal, with the history that their draw and the replies they get call for, all other rows and histories are unchanged; what was done when is a script |
| Drain.DrainedByDraw | app/src/halcyon_sim/faults.py:35-44 | after a drain a job that was waiting, whatever attempts it had: below the timeout rate DEAD_LETTER at max_retries + 1 attempts with a timeout row for each new one; up to the sum of the rates DEAD_LETTER after one more row; above it no injected row: without a free slot DEAD_LETTER unrecorded, with one as the replies have it up to the first that is no retryable error or to the ceiling |
| Drain.DrainedCompletely | app/src/halcyon_sim/worker.py:61-69 | if every claimable job was pending and nothing RUNNING, no claimable or RUNNING job remains |
| Drain.DrainedTotal | app/src/halcyon_sim/worker.py:92-194 | a drain that had a claimable row uses up remaining attempts, the measure of recovery |
| Worker.Worker.Recover | app/src/halcyon_sim/worker.py:92-213 | with the pending ids lost, whatever is stuck in processing and for any batch size from 1, alternating reconcile and drain terminates; every job that is neither stuck nor behind a batch of stuck ready rows ends quarantined (as before) or terminal, blocked jobs are untouched, stuck ones get no attempt; what was done when is a script |
| Recovery.UnsettledIff | app/src/halcyon_sim/jobs.py:360-377 | after recovery a job that is not stuck is unsettled if and only if it was and at least `limit` stuck ready rows precede it in insertion order |
| Recovery.NothingStuck | app/src/halcyon_sim/worker.py:201-213 | with nothing stuck, recovery from the ledger alone settles every job |
| Recovery.RecoveryPass | app/src/halcyon_sim/worker.py:201-213 | one pass of recovery: what it wakes is neither stuck nor blocked, and if it wakes nothing recovery is complete |
| Protocol.InitialInv | app/src/halcyon_sim/jobs.py:315-321 | the empty system satisfies the invariant |
| Protocol.StepKeepsInv | app/src/halcyon_sim/worker.py:61-213 | every step keeps the invariant: upload, scanner, pop, each handler step, death, reconcile, clock, queue loss |
| Protocol.OwnerStepKeepsInv | app/src/halcyon_sim/worker.py:92-194 | a handler between pop and acknowledge keeps it at each await and at its death |
| Protocol.JobsArrive | app/src/halcyon_sim/jobs.py:74-97 | in any state any new job with a new id can be uploaded and any time can pass |
| Protocol.HandlersDie | app/src/halcyon_sim/worker.py:86-90 | any live handler can die except while freeing its slot, which leaves ledger, queue and history alone and at most its slot to be freed |
| Protocol.QueueLoses | docs/architecture/part1-production-platform.md:175 | the queue can lose any pending ids and any processing ids that no live handler owns, and nothing else changes |
| Guarantees.RunsKeepInv | app/src/halcyon_sim/worker.py:61-213 | so does every run |
| Guarantees.StepRows | app/src/halcyon_sim/jobs.py:100-116 | a step changes a row along an edge of the table or by a late save, and never its identity |
| Guarantees.TerminalForever | app/src/halcyon_sim/jobs.py:28-30 | in every run a terminal job stays terminal; the only change of status is DEAD_LETTER to SUCCEEDED, and SUCCEEDED and REJECTED rows are frozen |
| Guarantees.AttemptCeiling | app/src/halcyon_sim/jobs.py:61-71 | claims ever won equal attempt_count, which never decreases nor passes max_retries + 1, and a claimable row has an attempt left |
| Guarantees.WakeExclusion | app/src/halcyon_sim/queue.py:47-68 | pending is distinct and apart from processing, a job has at most one handler, which is in processing; a RUNNING row has one that will save it unless one died; nothing quarantined or rejected is queued or handled |
| Guarantees.HistoryConservation | app/src/halcyon_sim/jobs_sql.py:87 | attempt numbers strictly increase within attempt_count, and with no open attempt, attempt_count = recorded + ended by slot exhaustion + cut off by a death |
| Guarantees.InferenceCap | app/src/halcyon_sim/worker.py:142-194 | held slots match handlers between acquire and release one to one, so never more than the pool are in inference |
| Guarantees.DeathStrands | app/src/halcyon_sim/worker.py:86-90 | a death between pop and acknowledge strands exactly the job the handler owned |
| Guarantees.EscapeStrands | app/src/halcyon_sim/worker.py:155-194 | so does an exception that escapes the inference phase, a missing PDF included |
| Guarantees.StrandedForever | app/src/halcyon_sim/queue.py:64-68 | a stranded job is never pending nor claimed again in any run that keeps its processing entry |
| Wakes.StepKeepsWake | app/src/halcyon_sim/worker.py:92-213 | a step that does not lose the job's pending entry, kill or break its handler, or release it from the scanner keeps the job's wake, whatever it does to other jobs |
| Wakes.NoLostWake | app/src/halcyon_sim/worker.py:92-213 | over every run of such steps a claimable job stays pending, in processing or about to be enqueued, a RUNNING one has a handler that will save it, its processing entry has a live handler, and at rest it is quarantined or terminal |
| Wakes.InitialWoken | app/src/halcyon_sim/queue.py:43-45 | the empty system has lost no wake |
| Progress.StepMeasures | app/src/halcyon_sim/worker.py:61-213 | each pop and handler step lowers a measure of ledger, queue and live tasks, which only uploads and reconciler offers raise, by a known amount |
| Progress.MovesAreBounded | app/src/halcyon_sim/worker.py:61-213 | so in every run, however interleaved, pops and handler steps are bounded by the start and by what uploads and offers add |
| Progress.RestOrMove | app/src/halcyon_sim/worker.py:61-69 | until nothing is live or pending some pop or handler step is possible |
| Progress.ConcurrentDrain | app/src/halcyon_sim/worker.py:61-69 | concurrent draining terminates, and at rest every job whose wake was kept is quarantined or terminal |
| Lease.TimedRunsHoldLeases | app/src/halcyon_sim/jobs.py:200-224 | within the bound, every handler that will save still holds an unexpired lease, in every timed run |
| Lease.LateSaveLeavesTable | app/src/halcyon_sim/jobs.py:339-341 | at or over the bound there is a timed run in which a late save turns a DEAD_LETTER row into SUCCEEDED |
| Lease.ConformanceIff | app/src/halcyon_sim/worker.py:104-110 | all timed runs move only along the transition table, each save landing on the RUNNING row of its attempt, if and only if work + inference + completion < lease |
| Lease.DefaultsConformSettingsNeedNot | docs/client/assumption-log.md:207 | the documented budget satisfies the bound under the default lease; an inference phase as long as a timeout the settings accept does not |
| Authority.MoveKeepsSole | app/src/halcyon_sim/worker.py:61-213 | within the lease every step, and any change whatever of the queue, keeps claims exclusive and live, counts and history unique, slots matched, and stays on the transition table |
| Authority.QueueIsHint | docs/architecture/part1-production-platform.md:175 | so with an arbitrary queue no two handlers claim one job, each claim has a RUNNING row with a live lease, claims equal attempt_count under the ceiling, no attempt is recorded twice and inference stays capped |
| Authority.AttemptFalls | app/src/halcyon_sim/jobs.py:339-341 | at or over the bound there is a run with two claims on one job in which a late save sets attempt_count back |
| Authority.TerminalRevives | app/src/halcyon_sim/jobs.py:339-341 | and one in which the late save of a first handler turns the row that a second one dead-lettered into RETRY |
| Authority.ClaimsExceed | app/src/halcyon_sim/jobs.py:119-148 | after which the job is claimed more often than max_retries + 1 |
| Authority.AuthorityIff | app/src/halcyon_sim/worker.py:92-213 | conformance, exclusive claims, counts that never fall, terminal jobs that stay terminal and claims under the ceiling each hold for every queue if and only if work + inference + completion < lease |
| Refinement.ProcessOneIsRun | app/src/halcyon_sim/worker.py:61-69 | popping and processing one id alone is a run of the state machine with the same end |
| Refinement.ReconcileIsRun | app/src/halcyon_sim/worker.py:201-213 | so is a reconcile pass |
| Refinement.WorkIsRun | app/src/halcyon_sim/worker.py:61-213 | every script of a worker running alone, a drain and the whole recovery among them, is a run of the state machine with the same end and no task left |
| Refinement.WorkStaysReachable | app/src/halcyon_sim/worker.py:61-213 | from a reachable state the end of the script is reachable, so every guarantee of reachable states holds of it |
| Storage.KeyInjective | app/src/halcyon_sim/storage.py:55-58 | equal object keys mean equal vendor and job |
| Storage.PrefixExact | app/src/halcyon_sim/storage.py:66 | the prefix check accepts a generated key for exactly its vendor |
| Storage.OwnershipExact | app/src/halcyon_sim/storage.py:61-72 | a stored object belongs to its uploader and to nobody else, metadata names normalised |
| Storage.LastEntryDecides | app/src/halcyon_sim/storage.py:66-72 | for any key and metadata: if an entry names the vendor, in either case and with dash or underscore, and no later one does, the object belongs to exactly the vendor whose prefix the key carries and whose text that entry holds |
| Storage.KeyDecides | app/src/halcyon_sim/storage.py:66-72 | without such an entry the key's prefix decides alone |
| Storage.WrongVendorRefused | app/src/halcyon_sim/storage.py:68-72 | `vendor-id`, `vendor_id` and `Vendor-Id` with another value refuse even the vendor of the key |
| Storage.InMemoryObjectStorage.PutPdf | app/src/halcyon_sim/storage.py:83-100 | stores content and metadata under the generated key |
| Storage.InMemoryObjectStorage.Delete | app/src/halcyon_sim/storage.py:102-104 | removes that key's object and metadata, if any |
| Storage.InMemoryObjectStorage.GetBytes | app/src/halcyon_sim/storage.py:106-111 | the stored bytes, or not found |
| Uploads.AppState.Upload | app/src/halcyon_sim/api.py:140-175 | the ordered effects on storage, ledger and queue with the compensating delete, for every combination of failures, a put or an insert that raises after it took effect included |
| Uploads.UploadKeepsObjectsIff | app/src/halcyon_sim/api.py:140-175 | the exact condition under which one upload leaves every row's PDF stored unchanged: nothing stored; a new id whose insert did not raise after taking effect with the PDF then deleted; the id of another vendor's row; or a repeat of the stored bytes that is not deleted |
| Uploads.RowObjectIntegrity | app/src/halcyon_sim/api.py:140-175 | after any uploads with fresh ids, whichever parts fail, every row's PDF is the one uploaded with it if and only if none raised after its insert took effect and then deleted the PDF |
| Uploads.UploadOwnsObjectsIff | app/src/halcyon_sim/api.py:140-175 | the exact condition under which one upload leaves no PDF without a row |
| Uploads.ObjectRowIntegrity | app/src/halcyon_sim/api.py:158-165 | after any uploads with fresh ids every stored PDF is some row's if and only if no put raised after it stored and no insert that left no row was followed by a failing delete |
| Arrivals.RowOfRequest | app/src/halcyon_sim/jobs.py:74-97 | each request has a row exactly if its put returned and its insert took effect: QUARANTINED if a scan is required, else ACCEPTED, every field written out |
| Arrivals.UploadsInOrder | app/src/halcyon_sim/jobs.py:323-328 | the insertion order is the old one followed by the ids of the inserted requests in request order |
| Arrivals.UploadsQueue | app/src/halcyon_sim/api.py:167-174 | with a scan required uploads offer nothing to the queue; without, it gets the ids of the accepted requests it was up for, in request order |
| Arrivals.OldestUploadsWoken | app/src/halcyon_sim/worker.py:201-213 | with the whole queue lost, one pass wakes the first `limit` of the rows ready before, in insertion order, and then of the uploads in the order they came in |
| Lifecycle.UploadIsRun | app/src/halcyon_sim/api.py:140-175 | an upload, whatever of it fails, is a run of the state machine with the same ledger and queue |
| Lifecycle.UploadsAreRun | app/src/halcyon_sim/api.py:140-175 | so is any sequence of uploads |
| Lifecycle.StoryIsReachable | app/src/halcyon_sim/worker.py:61-213 | uploads, the loss of everything pending and a script of the worker lead to a reachable state, so every guarantee holds |
| Lifecycle.UploadLoseRecover | docs/architecture/part1-production-platform.md:175 | from an empty system, uploads with fresh ids of which none deletes the PDF of a row it inserted, then loss of the queue, then recovery: every job is quarantined or terminal, every accepted upload has its row and its PDF unchanged, and the state is reachable |
| EnvFile.SplitJoin | scripts/merge_nonsecret_env.py:67 | splitting undoes joining, for every non-empty list of one-line strings |
| EnvStability.SplitJoined | scripts/merge_nonsecret_env.py:67 | any non-empty list of strings, joined, reads back as the pieces of each in order |
| EnvFile.AssignPrint | scripts/merge_nonsecret_env.py:29 | parsing an assignment line undoes printing it |
| EnvFile.AssignNotSkipped | scripts/merge_nonsecret_env.py:35-37 | an assignment line is never taken for a comment or a blank |
| EnvFile.ParseEnvLoop | scripts/merge_nonsecret_env.py:32-45 | the loop computes the fold that the laws are about |
| EnvFile.MergeLoop | scripts/merge_nonsecret_env.py:48-67 | the loops compute the merged text that the laws are about |
| EnvFile.AppendMissing | scripts/merge_nonsecret_env.py:60-66 | the block appended for keys that replaced no line |
| EnvFile.ParsedAreValid | scripts/merge_nonsecret_env.py:32-45 | parse_env yields distinct, well-formed, non-secret keys with one-line values |
| EnvFile.ParsedKeys | scripts/merge_nonsecret_env.py:34-44 | a key is parsed exactly when some line assigns it and it is not secret |
| EnvFile.SplitMerge | scripts/merge_nonsecret_env.py:48-67 | the merged text reads back as the merged lines |
| EnvFile.MergeOverlaysUpdates | scripts/merge_nonsecret_env.py:48-67 | for every text and all valid non-secret updates, parsing the merge is the ordered overlay of the parsed text by the updates |
| EnvFile.MergeIsOverlay | scripts/merge_nonsecret_env.py:32-67 | in particular for updates that parse_env produced, repeated keys included |
| EnvFile.OverlayLookup | scripts/merge_nonsecret_env.py:32-67 | the overlay holds the update where there is one and the old value elsewhere |
| EnvStability.MergeIsConservative | scripts/merge_nonsecret_env.py:52-59 | whatever the updates, every line that is no assignment of an updated non-secret key stands unchanged where it lands, comments and blanks among them, every other becomes the update; with one-line values it lands at its own index |
| EnvStability.MergeIsIdempotentIff | scripts/merge_nonsecret_env.py:48-67 | for every dictionary of updates, merging twice gives the same text if and only if every key has the form of a key and is not secret and every value is one line, a carriage return at its end allowed |
| EnvStability.MergeIsIdempotent | scripts/merge_nonsecret_env.py:32-67 | so merging parsed updates is always idempotent |
| EnvText.LinesEndAtBreaks | scripts/merge_nonsecret_env.py:34 | splitlines breaks at exactly the ten line boundaries, takes a carriage return and line feed as one, and keeps text after the last break as a line |
| EnvText.AssignIff | scripts/merge_nonsecret_env.py:29 | a line assigns a key exactly if it starts with a well-formed key and an equals sign, and the value is the rest |
| EnvText.ParsedIff | scripts/merge_nonsecret_env.py:34-44 | a key is parsed exactly if some line assigns it and it is none of the nine secret names, written out |
| EnvText.ParsedValue | scripts/merge_nonsecret_env.py:41-44 | its value is that of the last line that assigns it |
| EnvText.ParsedOrder | scripts/merge_nonsecret_env.py:33-44 | the keys come in the order of the lines that first assign them |
| EnvText.SecretsStay | scripts/merge_nonsecret_env.py:15-27 | for every text and every dictionary none of the nine names is parsed, and every line that assigns one stands unchanged where it lands, which is its own index for one-line updates |
| EnvText.UpdatesLand | scripts/merge_nonsecret_env.py:52-57 | every line that assigns any other key with an update becomes the update |
| EnvText.OtherLinesStay | scripts/merge_nonsecret_env.py:58-59 | every line that assigns no updated key stands unchanged |
| EnvText.TailLines | scripts/merge_nonsecret_env.py:60-66 | the appended block: an empty line exactly if the last merged line has a character that is not white space, the header text, then `key=value` for each |
| EnvText.MergeWrites | scripts/merge_nonsecret_env.py:48-67 | the merged text is the merged lines and the block for exactly the updates that replace no line, in their own order, each line followed by a line feed |

## Left out

- HTTP transport, authentication, settings parsing, logging, signals: input and output around the core.
- Worker.run_forever bookkeeping (`_in_flight`, `_stopping`, grace period): it bounds how many handlers are live, the proofs allow any number.
- `HttpxInferenceClient`: its result is an arbitrary answer, one of the four error kinds, or an escaping exception.
- SQL sessions, row locks, advisory locks, `_to_record` and `_apply_record`: SQL methods are atomic operations on a table of records; the slot pool is the in-memory one.
- SqlLedger.SqlAlchemyJobRepository.ListReconcileCandidates: one reading of the rows serves each query; PostgreSQL's planner is a choice of any legal answer.
- Valkey connections, retries and the gaps between the commands of one method: each method is one operation on two lists.
- `QueueUnavailableError` after a save: modelled as the handler's death; on upload, as the queue being down.
- The random generator, floating-point rates and `work_seconds`: the draw is an arbitrary function of seed and job id, rates are real numbers, work takes any time.
- PDF validation, digests, filename cleaning, presigned URLs: single-branch facts or library calls.
- `get` and `get_by_id`: lookups in the ledger.
- The merger's `main`: file reading and writing.
- Worker.Worker.DrainQueue: handles one id at a time; that interleaved handlers terminate as well is `Progress.ConcurrentDrain`.
- Lease.DefaultsConformSettingsNeedNot: the budget of 240 + 240 + 30 seconds is the documented one, not one the settings enforce.
- Uploads.AppState.Upload: requests that fail validation never reach it.
- Clocks read several times inside one operation: one reading per operation.
- Terraform, shell, load and chaos scripts, slides: no logic to model.
