# Verified model of the ingest queue, its caches and its retrieval cores

This project models the parts of the repository where state, interleaving or
arithmetic make mistakes likely, and proves what they keep.

- **Ingest queue** (`IngestRows`, `IngestProtocol`, `IngestAgreement`,
  `IngestMaintenance`, `IngestClaims`, `IngestLease`, `IngestFits`, `IngestAttempts`,
  `IngestProgress`). The files, documents and jobs tables; one function per committed
  transaction; a step relation in which any number of workers interleave upload, select,
  claim, begin, finish, retry, re-enqueue, recovery, maintenance, clock ticks and crashes,
  in database-queue mode. `Config` and every state, run and worker count are arbitrary.
- **The same code statement by statement** (`IngestService`, `IngestWorld`,
  `IngestDrain`, `IngestRounds`, `IngestEndless`, `IngestRetries`, `IngestEffects`,
  `IngestRefinement`, `IngestPages`). Classes whose methods update the tables as the
  service does, proved against the commit functions; one worker's processing and draining,
  with the exact tables on which a drain ends, exact retry accounting, and what an upload,
  a claim and a whole processing leave in each row; and a proof that a whole drain is a run
  of the step relation.
- **Reranker runner** (`RerankerRunner`, `RerankerPlan`). Make-style staleness over an
  ordered plan, asked again at every step, against a forced full run; and the pipeline's
  own seven steps with what their command lines read and write.
- **Training-set builder** (`RerankDataset`, `RerankResume`, `RerankRows`,
  `RerankBuilder`). Append and resume after kills, against one uninterrupted run, and
  exactly which rows each chunk gives.
- **FAISS store** (`FaissModel`, `FaissAlignment`, `FaissHistory`, `FaissSearch`,
  `FaissFilters`, `FaissStore`). Payloads, ordered ids and index rows mirrored by three
  files written one after another; crashes between any two writes; over-fetch and
  post-filter search, one tenant apart from another.
- **Chunking and pagination** (`ChunkWindows`, `ChunkText`, `OpenWindows`, `Chunker`,
  `TextWords`, `Pagination`).
- **Smaller cores**: `RerankOrder`, `RetrievalMetrics`, `MetricValues` and
  `CandidateSweep` (the offline sweep against the production reranker), `RetrievalHealth`
  (the degradation registry against its report history), `DocumentIds` and
  `DocumentMemory` (id allocation).

`Options` and `Seqs` hold an option type and facts about cutting and joining sequences.

## Where the code does not keep what one would expect

The model follows the code. Each of these is proved, with its exact condition where
there is one:

- Uploading a digest again while its FAILED file still has a job or a retry pending
  gives the file a second live job (`IngestLease.ReuploadSafeIff`).
- The claim compares only the status, so two workers that selected the same stale row
  both recover it (`IngestClaims.TwoStepRecoversTwice`, `IngestLease.UpdateSafeIff`).
- A worker that outlives its lease can begin or finish the row of its successor
  (`IngestLease.StartSafeIff`, `IngestLease.FinishSafeIff`), and immediate processing
  leaves a row claimable while it is worked on (`IngestLease.ImmediateProcessingNeverSafe`,
  `IngestLease.ImmediateRaceReached`).
- An unfinished row of a COMPLETED file is claimed again and again and never finished, so
  that a drain need not end (`IngestRounds.RoundFinishesIff`,
  `IngestEndless.DrainEndsIff`, `IngestEndless.CompletedRowReached`).
- Recoveries of a stale row use up its retries, and raise its attempt without bound
  (`IngestAttempts.RetriedIff`, `IngestAttempts.AnyAttemptReached`).
- A crash during backoff leaves a file QUEUED for ever without a job
  (`IngestProgress.CrashLosesIff`, `IngestProgress.StrandedReached`).
- A batch rejected half way leaves ids in the FAISS store's memory only; a search that
  then builds the index can misalign rows and ids for good
  (`FaissAlignment.EnsureIndexAlignedIff`, `FaissHistory.RejectedBatchMislabels`).
- Resuming the training-set builder repeats the rows of a chunk with an empty key and
  loses those of a chunk that shares its key (`RerankResume.ResumeExactIff`).
- The degradation gauge is set outside the registry's lock and can stay at 1 or at 0
  (`RetrievalHealth.OvertakenGaugeIff`).

## What the model assumes

- Each `session.commit()` is one atomic step on maps; ids are never reused; the unique
  constraints on (tenant, digest) hold; statements do not raise. One clock reading
  stands for the readings within a commit; the clock does not go back.
- `COALESCE(updated_at, started_at, created_at)` is `updated_at`, which every row has.
- Clock readings, ingest results, embeddings, model scores, retrieval, generation and
  digests are arbitrary functions or values. The FAISS index returns every row once,
  best score first, padded with negative row numbers; the embedder and, where a theorem
  says so, the cross-encoder treat each input by itself.
- A file write, and one `append_rows` batch, happens fully or not at all. Output
  modification times strictly increase.
- Scores, weights and averages are real numbers without rounding.
- An upload's type is given or not; not given stands for missing and for empty.
- FAISS payload fields are compared as the filters see them, trimmed and in lower case;
  `is_active` is absent or a boolean.
- Whitespace is what Python's `isspace` knows; strings hold Unicode scalar values.

A run is *leased* when no claim that selected its row as PROCESSING updates it once a
live worker holds it, no worker writes its job row a processing timeout or more after its
last write to it, and no upload restarts a FAILED file that still has work pending. Select
and claim may be one transaction or interleaved with everyone else's. Crashes, recovery,
maintenance and the clock are not restricted.

## Model

| member | source | states |
|---|---|---|
| IngestAgreement.SweptTogether | app/ingest/service.py:488-509 | maintenance sweeps a document exactly when it sweeps the document's own file |
| IngestAgreement.StepKeeps | app/ingest/service.py:1051-1089 | every commit of every writer keeps the unique indexes, the references of jobs and workers, and the equality of file and document status |
| IngestAgreement.StatusAgreement | app/ingest/service.py:488-509 | over any run of any number of workers (two-step claims, expired leases, crashes, re-uploads, maintenance) file and document statuses stay equal and no reference dangles |
| IngestAgreement.FileAndDocumentAgree | app/ingest/service.py:805-873 | the same from empty tables, for each file: it has a document, of its own tenant and digest, with its own status |
| IngestMaintenance.MaintainedFile | app/ingest/service.py:488-509 | maintenance fails a PROCESSING file written longer ago than the timeout, and its document with it, both with STALE_PROCESSING; every other file stays as it is, and its document too |
| IngestMaintenance.MaintainedJob | app/ingest/service.py:477-482 | maintenance removes a job finished longer ago than the retention; every other job stays as it is |
| IngestMaintenance.IngestedFileSpared | app/ingest/service.py:488-509 | in every state of every run, maintenance leaves the file and the document of a worker that began to ingest it no longer than a timeout ago as they are |
| IngestMaintenance.UnfinishedJobsSpared | app/ingest/service.py:477-482 | in every state of a leased run maintenance leaves every unfinished job as it is |
| IngestClaims.QueuedClaimedOnce | app/ingest/service.py:688-707 | with SELECT and UPDATE interleaved by any number of workers, a row makes its QUEUED-to-PROCESSING claim at most once in a whole run |
| IngestClaims.PastForever | app/ingest/service.py:688-707 | a row that left QUEUED is never QUEUED again, so no claim of that kind follows |
| IngestClaims.LateClaimChangesNothing | app/ingest/service.py:685-707 | the loser of such a race leaves the tables exactly as they were |
| IngestClaims.RunFloor | app/ingest/service.py:649-660 | in runs whose claims see the row as it was selected, every later write to a row moves its time floor forward |
| IngestClaims.RecoveriesSpaced | app/ingest/service.py:649-727 | between a claim of a row and the next stale recovery of it at least the processing timeout passes |
| IngestClaims.AtomicRunsAreRechecked | app/ingest/service.py:645-669 | runs in which select and claim are one transaction meet the assumption of the two rows above |
| IngestClaims.TwoStepRecoversTwice | app/ingest/service.py:692-727 | a concrete run in which two workers that selected the same stale row both recover it at the same moment: two live holders, attempt raised twice |
| IngestLease.UpdateSafeIff | app/ingest/service.py:692-727 | the guarded UPDATE of a selected row keeps the queue invariant if and only if it does not take a row that it saw PROCESSING from a live holder |
| IngestLease.StepSafe | app/ingest/service.py:641-747 | every step of a leased run keeps the whole queue invariant |
| IngestLease.QueueSafety | app/ingest/service.py:641-747 | in every state of a leased run, its claims atomic or interleaved: at most one unfinished job per file, at most one live holder per row and that row is PROCESSING, `finished_at` set exactly on COMPLETED and FAILED rows, no unfinished job or retry for a COMPLETED file |
| IngestLease.ClaimedJobsProceed | app/ingest/service.py:1067-1080 | hence a job claimed from the table always goes on to ingestion: the early return for a completed file, which would leave its row PROCESSING, is not reached |
| IngestLease.ReuploadSafeIff | app/ingest/service.py:859-872 | an upload keeps the invariant if and only if it does not restart a FAILED file that still has an unfinished job or a retry under way |
| IngestLease.SecondLiveJob | app/ingest/service.py:859-872 | restarting such a file queues a new job beside every unfinished one it had and beside the retry a worker owes it |
| IngestLease.RestartReached | app/ingest/service.py:859-872 | a concrete leased run - upload, claim, begin, a failure - after which uploading the digest again does so |
| IngestLease.StartSafeIff | app/ingest/service.py:1051-1101 | a begin keeps the invariant, overslept or not, if and only if the file is COMPLETED or the row is unfinished, at the attempt the worker took, and held by no other live worker |
| IngestFits.OversleptBeginReached | app/ingest/service.py:650-660 | a concrete leased run after which a worker that slept since its claim can still begin, and then holds the row together with another live worker |
| IngestLease.FinishSafeIff | app/ingest/service.py:949-1000 | a finish keeps the invariant, overslept or not, if and only if the row still has the attempt the worker took (or is gone), no other live worker holds it, and no other unfinished job or retry names the file |
| IngestLease.OversleptFinishUnsafe | app/ingest/service.py:977-1000 | a worker that finishes after its row was recovered finishes the row under the worker that now holds it |
| IngestLease.OversleptReached | app/ingest/service.py:650-660 | a concrete leased run - upload, claim, begin, a timeout, recovery by a second worker - after which the first worker's finish would do so |
| IngestLease.CompletionReached | app/ingest/service.py:949-1000 | a concrete leased run that ends with the file and its job COMPLETED: the assumptions of the safety results can be met |
| IngestLease.ImmediateProcessingUnsafe | app/ingest/service.py:763-770 | with immediate processing the retried row is still QUEUED while it is worked on: whenever another worker can claim it, the row has two live holders |
| IngestLease.ImmediateProcessingNeverSafe | app/ingest/service.py:763-770 | immediate processing of a retry never keeps the invariant |
| IngestLease.ImmediateRaceReached | app/ingest/service.py:763-770 | a concrete run from empty tables that ends with two workers processing the same retry |
| IngestFits.StepSafeIff | app/ingest/service.py:641-747 | every step of the protocol, with what could be checked before it: the step keeps the invariant if and only if that holds |
| IngestFits.RunSafeIff | app/ingest/service.py:641-747 | a run from empty tables keeps the invariant in all its states if and only if each of its steps passes that check |
| IngestFits.LeasedRunsFit | app/ingest/service.py:641-747 | leased runs are such runs |
| IngestAttempts.AttemptCounts | app/ingest/service.py:714-727 | over any run a surviving row's attempt is the one it had plus the number of recoveries of it since |
| IngestAttempts.RetriedIff | app/ingest/service.py:714-727 | in a leased run a failure of the job is retried if and only if the row's attempt at its start plus its recoveries since is below `max_retries`; otherwise the file is FAILED for good |
| IngestAttempts.AnyAttemptReached | app/ingest/service.py:714-715 | leased runs raise a row's attempt to any number, whatever `max_retries` is |
| IngestProgress.NoFileLost | app/ingest/service.py:1377-1406 | in a leased run where no worker dies owing a retry, every file is COMPLETED, FAILED for good, or still has work pending |
| IngestProgress.CrashLosesIff | app/ingest/service.py:1392-1406 | a crash keeps that guarantee if and only if the worker was not about to retry a file |
| IngestProgress.StrandedForever | app/ingest/service.py:1385-1406 | a file left QUEUED without a job row stays so through every leased run |
| IngestProgress.BackoffCrashStrands | app/ingest/service.py:1402-1406 | a crash during the backoff sleep leaves its file in that state: no commit the workers, the recovery or the maintenance can make brings it back |
| IngestProgress.StrandedReached | app/ingest/service.py:1402-1406 | a concrete leased run to a worker in its backoff sleep, whose crash strands the file and breaks the guarantee |
| IngestWorld.AlwaysFailing | app/ingest/service.py:1131-1158 | with immediate processing, a job that always fails is tried once for each attempt number from its own to `max_retries`, leaves that many FAILED rows, and sleeps the sum of the doubling delays |
| IngestWorld.FirstUploadAlwaysFails | app/ingest/service.py:1377-1406 | with immediate processing, a fresh file that always fails gets exactly `max_retries`+1 attempts numbered 0, 1, ..., exactly that many job rows, all FAILED, final `retries` of `max_retries`+1, and total backoff of backoff*(2^max_retries - 1) |
| IngestRetries.UploadEnters | app/ingest/service.py:805-884 | an upload that queues a job for a file with no unfinished row puts it into the queue with a single job, on attempt 0 |
| IngestRetries.TrailKept | app/ingest/service.py:1377-1406 | in database-queue mode, at every point of any drain rounds that also serve other files: the file's calls so far are attempts 0, 1, 2, ... in order, each left one FAILED row, and the next attempt is queued unless `max_retries` is reached |
| IngestRetries.QueueGivesUp | app/ingest/service.py:1377-1406 | so when the queue has nothing more for a file whose every call failed: exactly `max_retries`+1 attempts and FAILED rows, final `retries` of `max_retries`+1, and backoffs for it of backoff*(2^max_retries - 1) |
| IngestRetries.SleptIsCharged | app/ingest/service.py:1377-1406 | over any rounds for any files the time slept is the sum of the backoffs of the failed calls, each doubling with its attempt |
| IngestEffects.FirstUpload | app/ingest/service.py:805-884 | the first upload of a digest records path, name, size and type, QUEUED and unretried, in a new file and a new document, and queues one job on attempt 0 |
| IngestEffects.UploadAfterFailure | app/ingest/service.py:859-872 | the upload of a FAILED digest takes the new path, name and size, clears error, retries and chunk counts, and queues one job on attempt 0 |
| IngestEffects.UploadAgain | app/ingest/service.py:831-873 | the upload of any other known digest queues nothing, and keeps path, name, size and status |
| IngestEffects.FirstClaim | app/ingest/service.py:688-712 | a first claim marks its row PROCESSING, keeps its attempt, its error and when it was first started, and takes the job the row describes |
| IngestEffects.RecoveryClaim | app/ingest/service.py:713-729 | a recovery counts one more attempt in the row, in its payload and in the job taken, and records RECOVERED_STUCK_JOB |
| IngestEffects.ClaimRefused | app/ingest/service.py:694-731 | a claim fails exactly when the row is gone, has left the status it was selected in, or names no file, and then nothing changes |
| IngestEffects.BeginShows | app/ingest/service.py:1051-1101 | a begin shows file, document and job PROCESSING, without the error and the chunk count of earlier attempts, and keeps path, name and size |
| IngestEffects.AlreadyDone | app/ingest/service.py:1065-1072 | for a COMPLETED file nothing is ingested: a QUEUED job is COMPLETED with it, any other job and every other row stay as they are |
| IngestEffects.FileGone | app/ingest/service.py:931-946 | a job whose file is gone fails with FILE_MISSING, at the begin and at the end alike, and nothing else changes |
| IngestEffects.SuccessRecorded | app/ingest/service.py:1131-1158 | a whole successful processing leaves file, document and job COMPLETED, all with the number of chunks that ingestion returned |
| IngestEffects.FailureRecorded | app/ingest/service.py:1131-1158 | a failed one leaves its job FAILED with the message, and after the last attempt the file and its document too, with `retries` one above the attempt |
| IngestEffects.RetryRecorded | app/ingest/service.py:1377-1406 | one with attempts left, in database-queue mode, leaves the file and its document QUEUED and exactly one new job row, on the next attempt |
| IngestDrain.HeadExists | app/ingest/service.py:662-677 | when any row is eligible, the ordered SELECT with LIMIT 1 returns one |
| IngestDrain.HeadOrder | app/ingest/service.py:662-666 | the row it returns is QUEUED if any eligible row is, of the highest priority among its kind, and the oldest among those |
| IngestDrain.ProcessWork | app/ingest/service.py:1131-1158 | processing a claimed job takes its row out of the measure and puts back at most one lighter retry, in database mode and with immediate processing |
| IngestDrain.RoundShrinksWork | app/ingest/service.py:1018-1049 | each round of drain whose clock readings stay within one timeout lowers the sum over eligible rows of max(1, max_retries + 1 - attempt), in tables of any shape |
| IngestDrain.ProcessUsable | app/ingest/service.py:597-640 | no processing makes a job payload unusable |
| IngestRounds.ProcessOrderly | app/ingest/service.py:1131-1158 | when no file has two unfinished jobs and no COMPLETED file has one, processing keeps that so and puts back at most one lighter retry, for every clock and with immediate processing or without |
| IngestRounds.RoundLowersWork | app/ingest/service.py:1018-1049 | so each round of drain keeps it and lowers the sum over all unfinished rows of max(1, max_retries + 1 - attempt), however long it takes |
| IngestRounds.RoundsBounded | app/ingest/service.py:1018-1049 | there are at most as many rounds as that sum at the start |
| IngestRounds.SafeIsOrderly | app/ingest/service.py:641-747 | the tables leased runs reach are of this kind |
| IngestRounds.RoundFinishesIff | app/ingest/service.py:1063-1080 | a round finishes the row it claims, whatever ingestion returns, if and only if the row does not name a COMPLETED file; otherwise the row stays unfinished, to be claimed again |
| IngestRounds.OrderlyEnds | app/ingest/service.py:1018-1049 | so on such tables there is a bound on the rounds of a drain, for every clock |
| IngestRounds.WindowEnds | app/ingest/service.py:1018-1049 | and on any tables while clock readings stay within one timeout |
| IngestEndless.NeverEnds | app/ingest/service.py:1018-1049 | on other tables - ingestion succeeding, every PROCESSING row stale and a timeout between clock readings - drain has runs of any number of rounds |
| IngestEndless.DrainEndsIff | app/ingest/service.py:1018-1049 | under any settings, tables whose unfinished rows name files have a bound on the rounds of a drain, whatever the clock reads and the calls return, if and only if no file has two unfinished jobs and no COMPLETED file has one |
| IngestEndless.ReachedDrainEndsIff | app/ingest/service.py:1018-1049 | the same of the tables any run of any workers reaches from empty ones |
| IngestEndless.CompletedRowReached | app/ingest/service.py:1067-1080 | a concrete run - a failure, a re-upload before the retry is queued, both jobs claimed - that ends with a stale PROCESSING row of a COMPLETED file at the head of the queue |
| IngestServices.IngestService.RegisterDocument | app/ingest/service.py:805-829 | find-or-create of the document row equals its specification, statement by statement |
| IngestServices.IngestService.RegisterFileRow | app/ingest/service.py:831-873 | find-or-create of the file row, with the reset of a FAILED file, equals its specification |
| IngestServices.IngestService.RegisterUpload | app/ingest/service.py:791-884 | an upload in database-queue mode is exactly the commit of the protocol, and reports whether it queued a job |
| IngestServices.IngestService.CreateJobRecord | app/ingest/service.py:537-570 | a new job row under a new id, nothing else |
| IngestServices.IngestService.DequeueNextJob | app/ingest/service.py:641-747 | either nothing is eligible and nothing changes, or the result is the claim of the head of the order |
| IngestServices.IngestService.Reserve | app/ingest/service.py:688-734 | the guarded update of a row selected in any status: nothing when the row left that status or is gone, otherwise the recovery bookkeeping, and the rollback of a row without a usable payload |
| IngestServices.IngestService.PerformMaintenance | app/ingest/service.py:468-515 | both sweeps and the removal of expired job rows, together, are the maintenance commit, of which `IngestMaintenance` says which files and jobs it touches |
| IngestServices.IngestService.SweepStuckFiles | app/ingest/service.py:488-509 | the loop fails exactly the PROCESSING files last written before the cutoff, and the documents they name; all else is unchanged |
| IngestServices.IngestWorker.BeginProcessing | app/ingest/service.py:1051-1101 | the begin commit: what it writes to the three tables and when ingestion goes on |
| IngestServices.IngestWorker.FinalizeJob | app/ingest/service.py:949-1000 | the finalize commit on the three tables |
| IngestServices.IngestWorker.ProcessJob | app/ingest/service.py:1131-1158 | the recursive processing, failure handling and re-enqueueing terminates and equals its specification |
| IngestServices.IngestWorker.AfterFailure | app/ingest/service.py:1377-1406 | the retry decision, the backoff, the requeue commit and the re-enqueue |
| IngestServices.IngestWorker.RequeueFile | app/ingest/service.py:1392-1403 | the requeue commit of file and document |
| IngestServices.IngestWorker.EnqueueRetry | app/ingest/service.py:749-789 | a retry's job row and, with immediate processing, its processing |
| IngestServices.IngestWorker.Drain | app/ingest/service.py:1018-1049 | with a limit it always ends; without one, whenever there is a bound on the rounds that can follow each other; its rounds take the tables where the specification does, on orderly tables in at most as many rounds as the measure; without a limit no row is eligible afterwards when every payload is usable, and otherwise only an unusable head is left |
| IngestServices.IngestWorker.ClaimAndProcess | app/ingest/service.py:1029-1047 | on any tables, a round claims the head of the order and processes it as specified, or finds nothing to claim and changes nothing but the clock |
| IngestRefinement.ProcessReaches | app/ingest/service.py:1131-1158 | one worker's processing is a leased run of the protocol ending in the same tables |
| IngestRefinement.RoundIsLeasedRun | app/ingest/service.py:1018-1049 | a whole drain round whose writes come within the timeout of the claim and of the begin, claim included, is a leased run of the protocol |
| IngestRefinement.DrainIsLeasedRun | app/ingest/service.py:1018-1049 | all rounds of a drain together are one leased run that ends in the tables the drain leaves; backoff sleeps and the time between rounds are not limited |
| IngestRefinement.DrainedTablesReached | app/ingest/service.py:1018-1049 | so the tables after a drain are reached by a leased run from empty tables when those before were: the safety results apply to them |
| IngestPages.NextBatch | app/ingest/service.py:1327-1329 | advancing the batch index when the counter reaches a multiple keeps it equal to counter div batch size |
| IngestPages.PageWriter.PersistChunk | app/ingest/service.py:1301-1330 | one chunk row and one payload with the same digest and text; fewer rows than a batch are ever uncommitted |
| IngestPages.PageWriter.PersistPage | app/ingest/service.py:1252-1332 | a page's pieces are written in order with places 1, 2, 3, ..., the counters carrying over from the page before |
| IngestPages.PageWriter.IngestFile | app/ingest/service.py:1345-1375 | through the whole file row i is in batch i div `embed_batch_size`, and the count returned is that of the rows and of the payloads, in the same order |
| RerankerRunner.IsStale | scripts/run_reranker_gpu.py:255-273 | the loop decides exactly: output missing, or some known upstream output newer |
| RerankerRunner.RunPlan | scripts/run_reranker_gpu.py:534-546 | the step loop, which asks about staleness again at each step, equals the pass it is specified by |
| RerankerRunner.PassHonest | scripts/run_reranker_gpu.py:534-546 | whatever steps fail or are interrupted, every output that exists and is not older than its upstreams was made from them |
| RerankerRunner.PassCurrent | scripts/run_reranker_gpu.py:276-281 | after a completed pass no step is stale |
| RerankerRunner.CompletedPassIsUpToDate | scripts/run_reranker_gpu.py:255-281 | after any history of interrupted passes and deletions followed by one completed pass, every output was made from the present outputs of its upstreams |
| RerankerRunner.SecondPassRunsNothing | scripts/run_reranker_gpu.py:284-293 | a second pass executes nothing and changes nothing |
| RerankerRunner.SameContents | scripts/run_reranker_gpu.py:255-281 | two up-to-date output directories of repeatable steps hold the same contents |
| RerankerRunner.ResumeEqualsForcedRun | scripts/run_reranker_gpu.py:534-546 | so resuming after any history of interruptions gives the outputs of one forced full pass |
| RerankerRunner.ExecutedExactly | scripts/run_reranker_gpu.py:284-293 | the start-of-run forecast is a subset of what a completed pass executes, which is exactly the forecast closed under declared dependence |
| RerankerRunner.ForcedRunsAll | scripts/run_reranker_gpu.py:284-293 | a completed forced pass runs every step, as the forecast under force says |
| RerankerRunner.StopsAtFailure | scripts/run_reranker_gpu.py:534-546 | a pass that does not complete ran a step that failed and nothing after it; all it ran before succeeded |
| RerankerRunner.UnexecutedKept | scripts/run_reranker_gpu.py:534-546 | whatever a pass does, an output that no executed step produces is as it was |
| RerankerPlan.DependsOnWhatItReads | scripts/run_reranker_gpu.py:153-244 | in both profiles a step is declared to depend on another exactly when its command line or environment names the path the other is told to write, and then comes after it |
| RerankerPlan.BuildPlanWellFormed | scripts/run_reranker_gpu.py:153-244 | both profiles' plans have distinct names and outputs and depend only on earlier steps, as the results on the runner ask |
| RerankerPlan.InputsAreReads | scripts/run_reranker_gpu.py:153-244 | so on every disk the inputs that explain a step's output are the contents at the paths it reads, of those the pipeline writes |
| RerankerPlan.StaleIffReadIsNewer | scripts/run_reranker_gpu.py:255-273 | with all outputs there, a step of the pipeline is stale if and only if something it reads was written after its own output |
| RerankerPlan.PipelineResumes | scripts/run_reranker_gpu.py:153-244 | for the pipeline itself: after any history of interruptions a completed pass leaves each output made from what its command reads as it is on disk, and with repeatable steps the contents of one forced full pass |
| FaissModel.PayloadsRoundTrip | app/retriever/faiss.py:135-139 | payloads.json reads back as the insertion-ordered dictionary that was written |
| FaissModel.LoadedIds | app/retriever/faiss.py:119-133 | a new process takes the saved documents in their order when there is no mapping, of a mapping the ids with a payload in its order, and of one that is no list nothing |
| FaissAlignment.EnsureIndexAlignedIff | app/retriever/faiss.py:174-182 | opening the index keeps the store aligned if and only if it does not write rows for ids that only a rejected batch left in memory |
| FaissAlignment.PayloadsWritten | app/retriever/faiss.py:135-139 | after the first write of an upsert memory and files are still aligned |
| FaissAlignment.MappingWritten | app/retriever/faiss.py:140 | after the second write the mapping file says what memory says |
| FaissAlignment.StagesAligned | app/retriever/faiss.py:135-172 | however many of the three writes of an upsert happened, memory and files are aligned |
| FaissHistory.OpenAligned | app/retriever/faiss.py:231-233 | a search's opening of the index, with the same condition; one whose embedding fails never breaks alignment |
| FaissHistory.DoAligned | app/retriever/faiss.py:186-219 | every use, failure or crash keeps: index rows belong in order to a prefix of a duplicate-free id list, all of it payload keys, and row i embeds a text once stored under id i - in memory and in what a restart would load |
| FaissHistory.HistoryAligned | app/retriever/faiss.py:119-219 | the same over any history of uses, failed embeddings, crashes between any two writes, and restarts, in which no search opens the index on unsaved ids |
| FaissHistory.IdentifiedHistoriesAligned | app/retriever/faiss.py:199-219 | and over every history at all when every chunk carries an identifier |
| FaissHistory.RejectedBatchMislabels | app/retriever/faiss.py:199-202 | a concrete history - a batch rejected at its second chunk, a search, a restart, an upsert that dies before its last write, a search - after which row 0 stands for another document |
| FaissHistory.UpsertCompletes | app/retriever/faiss.py:190-219 | after a completed upsert every row embeds the current text of its id, the files mirror memory, new ids follow the old in first-seen order, the last payload of each id wins and other payloads are untouched |
| FaissHistory.FirstSeenInOrder | app/retriever/faiss.py:215-216 | new ids are ordered by their first appearance in the batch |
| FaissSearch.AnswerAgainstExact | app/retriever/faiss.py:254-312 | the answer is a prefix of the exact answer (filter all rows, best first, take top_k), and equal to it if and only if enough fetched candidates pass or no passing row lies beyond the candidate limit |
| FaissSearch.SmallIndexExact | app/retriever/faiss.py:254 | with at most 20*top_k rows the answer is exact |
| FaissSearch.ExactIsBest | app/retriever/faiss.py:256-312 | hits pass every filter under their own payload, are distinct documents with non-increasing scores, and no passing row left out scores above one |
| FaissFilters.PassesIff | app/retriever/faiss.py:264-307 | a document passes if and only if it is the tenant's (its owner's when it names none) and says everything asked for: owner, every tag, act type, number, an issuer that contains the one asked for, activity and revision |
| FaissFilters.HitsAreWanted | app/retriever/faiss.py:259-313 | every hit, whatever the index proposes, is a stored document of the tenant asked for with everything else asked for |
| FaissFilters.TenantsApart | app/retriever/faiss.py:264-269 | two tenants never get the same document, whatever they ask |
| FaissFilters.RevisionsApart | app/retriever/faiss.py:304-307 | `current` never returns an inactive document, `historical` never an active one |
| FaissFilters.OtherTenantsDoNotMatter | app/retriever/faiss.py:264-269 | an answer does not change when the payloads of other tenants do |
| FaissFilters.WantedAreFound | app/retriever/faiss.py:259-313 | every ranked document of the tenant that says what is asked for is among the matches; with nothing asked for but the tenant, every ranked document of the tenant |
| FaissFilters.BeyondLimitLost | app/retriever/faiss.py:254-255 | when none of the first 20*top_k candidates passes the answer is empty, whatever comes after them |
| FaissFilters.SameDigestOneDocument | app/retriever/faiss.py:199-216 | chunks with one digest are one document, whatever their ids, with the last one's payload |
| FaissFilters.IdsDecide | app/retriever/faiss.py:199-216 | without digests different ids are different documents |
| FaissStore.BatchedEncode | app/retriever/faiss.py:106-117 | encoding in batches gives the rows of the whole list for every batch size |
| FaissStore.FaissVectorStore.constructor | app/retriever/faiss.py:59-77 | a new process starts with empty memory on the files as they are |
| FaissStore.FaissVectorStore.LoadPayloads | app/retriever/faiss.py:119-133 | memory becomes what the files say: dictionary order, the mapping filtered to known ids, a mapping that is no list read as empty |
| FaissStore.FaissVectorStore.PersistPayloads | app/retriever/faiss.py:135-140 | payloads before ids |
| FaissStore.FaissVectorStore.RebuildIndex | app/retriever/faiss.py:142-172 | rows for all ids in order, or no index file when there are none |
| FaissStore.FaissVectorStore.EnsureIndexLoaded | app/retriever/faiss.py:174-182 | the index in memory, else the file, else a rebuilt one |
| FaissStore.FaissVectorStore.EnsureReady | app/retriever/faiss.py:186-188 | a reload followed by opening the index |
| FaissStore.FaissVectorStore.TakeChunks | app/retriever/faiss.py:199-216 | the batch in memory, up to the first chunk without an identifier |
| FaissStore.FaissVectorStore.UpsertChunks | app/retriever/faiss.py:190-219 | the whole upsert, its early return and its error included |
| FaissStore.FaissVectorStore.Collect | app/retriever/faiss.py:259-313 | the post-filter loop gives the first top_k accepted candidates |
| FaissStore.FaissVectorStore.Search | app/retriever/faiss.py:221-313 | nothing for a non-positive top_k; otherwise the index is opened, the answer is that of the specification, and every hit is the tenant's with everything asked for |
| RerankBuilder.DedupeQueries | scripts/build_rerank_dataset.py:182-191 | the loop keeps the first query of each normalised form |
| RerankResume.DedupeKeepsFirst | scripts/build_rerank_dataset.py:182-191 | what is kept are, in order, exactly the queries no earlier one normalises like |
| RerankResume.FirstPlacesAre | scripts/build_rerank_dataset.py:182-191 | which places those are, by position |
| RerankBuilder.BuildPairs | scripts/build_rerank_dataset.py:46-63 | pairs in query and candidate order; the closing leak assertion never fails |
| RerankResume.NoLeak | scripts/build_rerank_dataset.py:54-62 | no row of the training set asks a golden question, after normalisation |
| RerankRows.RowsAre | scripts/build_rerank_dataset.py:341-351 | the rows of a chunk are one for each passage retrieved for each generated question that is the first of its normalised form and not golden, in that order |
| RerankRows.RowsScored | scripts/build_rerank_dataset.py:349-350 | each with the score the scorer gives it among all pairs of the chunk |
| RerankRows.RowsDiffer | scripts/build_rerank_dataset.py:345 | when retrieval returns distinct chunk keys, no two rows of one chunk agree in normalised question and chunk key |
| RerankRows.ExactlyOneRow | scripts/build_rerank_dataset.py:341-351 | every generated question outside the golden set has exactly one row for each passage retrieved for the first question of its form |
| RerankRows.FileRowsDiffer | scripts/build_rerank_dataset.py:319-358 | nor do two rows of a whole run, of one source, when the chunks that yield rows have different keys |
| RerankBuilder.CompletedSourceKeys | scripts/build_rerank_dataset.py:120-141 | the keys of well-formed rows with a non-empty source key |
| RerankDataset.DoneMarks | scripts/build_rerank_dataset.py:120-141 | a key is done exactly when some line records it; blank, torn and keyless lines count for nothing |
| RerankBuilder.PairsFile.AppendRows | scripts/build_rerank_dataset.py:82-98 | appends pair by pair, or refuses and changes nothing when the lengths differ; an empty batch creates no file |
| RerankBuilder.PairsFile.DoChunk | scripts/build_rerank_dataset.py:341-351 | one chunk's rows are appended, or none when it has no key, no pairs, or a scorer that miscounts |
| RerankBuilder.PairsFile.GenerateScoreFlush | scripts/build_rerank_dataset.py:319-358 | at every chunk boundary the file holds exactly the rows of the chunks done so far, and the count is theirs |
| RerankBuilder.PairsFile.Build | scripts/build_rerank_dataset.py:401-440 | a session, fresh or resumed, killed or not, leaves the file its specification gives |
| RerankResume.DoneKeys | scripts/build_rerank_dataset.py:120-141 | the keys a resumed run finds done are those of the chunks that gave rows |
| RerankResume.ResumeStep | scripts/build_rerank_dataset.py:151-163 | a run resumed after a cut at some chunk reaches a cut at a later chunk, or the end |
| RerankResume.ResumeExact | scripts/build_rerank_dataset.py:319-358 | whatever the kills, resuming to the end gives the rows of one uninterrupted run in the same order |
| RerankResume.ResumeExactIff | scripts/build_rerank_dataset.py:138-140 | this holds for every history of kills if and only if the chunks that yield rows have non-empty, different keys |
| RerankResume.EmptyKeyRepeats | scripts/build_rerank_dataset.py:139-140 | a chunk with an empty key is never seen as done: after one kill and a resume the rows written before the kill under that key are in the file once more |
| RerankResume.SharedKeyLoses | scripts/build_rerank_dataset.py:163 | when two chunks share a key, one kill in between and a resume leave under it only the rows written before the kill, fewer than an uninterrupted run gives |
| ChunkWindows.WindowAndStep | app/ingest/chunking.py:433-452 | the window is at least 1 and the step between 1 and the window, for any input |
| ChunkWindows.SameStep | app/ingest/chunking.py:251-255 | both windowing routines move by the same step |
| ChunkWindows.WindowsAre | app/ingest/chunking.py:468-482 | window i starts at i*step, except the last, which is anchored at the end; each has the window's length |
| ChunkWindows.WindowsClose | app/ingest/chunking.py:471-479 | neighbours move strictly forward and leave no gap |
| ChunkWindows.WindowsCover | app/ingest/chunking.py:455-489 | every position lies in some window |
| ChunkWindows.WindowsCount | app/ingest/chunking.py:470-482 | exactly 1 + ceil((length - window)/step) windows for a longer source, 1 for a shorter one |
| ChunkText.CollectWindows | app/ingest/chunking.py:455-489 | the loop, the anchored tail and the last resort together return the non-empty pieces of exactly those windows, for any fetch |
| ChunkText.RebuildsText | app/ingest/chunking.py:455-489 | dropping each piece's overlap with its predecessor and joining gives the text back |
| OpenWindows.IterateWindows | app/ingest/chunking.py:351-371 | the other routine terminates and returns the pieces of the windows without an anchor; its guard against standing still never acts |
| OpenWindows.OpenAndAnchored | app/ingest/chunking.py:351-371 | both routines give equally many windows, equal but for the last; both last windows end the source |
| OpenWindows.SameIffStepsFit | app/ingest/chunking.py:478-482 | all windows are equal if and only if the source fits one window or the step divides length - window |
| OpenWindows.LastPieceIsSuffix | app/ingest/chunking.py:362-367 | on a text the last piece of the open routine is a suffix of the last piece of the other |
| Chunker.CodesRoundTrip | app/ingest/chunking.py:142-149 | the character tokenizer reads any slice of a text's codes back as that slice |
| Chunker.Chunk | app/ingest/chunking.py:492-549 | for any tokenizer and any configured default, raising or not: when pieces are runs of tokens, when runs of characters |
| Chunker.TokenPieces | app/ingest/chunking.py:532-541 | a tokenizer whose slices decode to text gives, for more tokens than the window or a text that fits it, exactly 1 + ceil((tokens - window)/step) pieces, piece i the decoding of a window of tokens that starts at i*step, the last one ending at the last token |
| Chunker.CharacterFallback | app/ingest/chunking.py:526-549 | when encoding raises the text is cut by characters, and when the tokens fit the window but the text they decode to does not, that text is |
| Chunker.CharPieces | app/ingest/chunking.py:492-541 | with the character tokenizer the pieces are the windows of the text for any chunk and overlap, a window of one included |
| Chunker.CharChunks | app/ingest/chunking.py:492-549 | in-bounds pieces of the window's length, strictly increasing starts, every position covered, the exact count, and the text rebuilt |
| TextWords.CleanWords | app/ingest/chunking.py:258-261 | collapsing and trimming whitespace loses no words |
| TextWords.CleanIsWords | app/ingest/chunking.py:258-261 | cleaned text is its words with one space between them |
| TextWords.StripIsCore | app/ingest/chunking.py:681 | trimming gives the text without the whitespace around it, and with neither end blank |
| Pagination.Paginate | app/ingest/chunking.py:698-718 | both paginators (the paragraph one differs by its separator) cut the trimmed non-blank lines, in order, into pages closed by the first line that takes them over 8000 characters |
| Pagination.WordsConserved | app/ingest/chunking.py:676-718 | the words of the pages in order are the words of the input in order |
| Pagination.PagesWell | app/ingest/chunking.py:707-718 | pages are numbered 1, 2, 3, ..., none is empty, every page but the last came from a buffer of more than 8000 characters |
| Pagination.CutUnique | app/ingest/chunking.py:703-715 | there is only one such way to cut the lines |
| Pagination.PagesUnique | app/ingest/chunking.py:676-718 | so the lines determine the pages |
| RerankOrder.RankedIsTheRanking | app/retriever/rerank.py:141 | sorting by (score, -index) descending gives the one permutation in which each index comes before those it beats |
| RerankOrder.BetterFirst | app/retriever/rerank.py:141 | along it scores never rise, and equal ones stand in the order they came in |
| RerankOrder.EqualScoresKeepOrder | app/retriever/rerank.py:141-143 | so when the scores tell no hits apart, reranking only cuts the base order |
| RerankOrder.UnscoredRank | app/retriever/rerank.py:132-133 | a hit the model left without a score stands behind those scored 0.0 or better and before those scored worse |
| RerankOrder.RerankedAre | app/retriever/rerank.py:141-143 | reranking returns the first hits of that ranking: as many as asked for, at least one and at most all |
| RerankOrder.BatchesAgree | app/retriever/rerank.py:124-130 | a model that scores pairs by themselves gives the same scores for every batch size |
| RerankOrder.CrossEncoderReranker.Rerank | app/retriever/rerank.py:110-143 | the batch loop, the padding of missing scores, the order and the cut |
| RerankOrder.ApplyRerank | app/retriever/rerank.py:146-163 | without a reranker the base order is only cut |
| CandidateSweep.SweepMatchesProduction | app/eval/candidate_sweep.py:24-41 | the offline reconstruction for k candidates gives the production order on the first k hits, for every batch size |
| CandidateSweep.ProductionCuts | app/retriever/rerank.py:121-143 | a smaller top_k only cuts the production order |
| CandidateSweep.SameHitAndRecall | app/eval/candidate_sweep.py:19-41 | reranking the candidates changes neither hit nor recall at any cut not below their number |
| CandidateSweep.ScoreItem | app/eval/metrics.py:34-44 | hit, recall and reciprocal rank at every cut asked for and nothing else, each with the value `MetricValues` gives it |
| CandidateSweep.AveragesCompare | app/eval/metrics.py:47-51 | a bound between metrics that holds of every question holds of the averages |
| CandidateSweep.TotalJoins | app/eval/metrics.py:47-51 | the totals behind the averages add up over any split of the questions |
| CandidateSweep.MeanOfSame | app/eval/metrics.py:47-51 | and each question counts once: when all have one value, that is the average |
| CandidateSweep.SweepHonest | app/eval/candidate_sweep.py:44-67 | through the averages, base and reranked hit and recall agree at every cut not below the number of candidates |
| CandidateSweep.SweepOne | app/eval/candidate_sweep.py:57-66 | for one number of candidates: the averages over the questions of every metric asked for, of the base and of the reranked order |
| CandidateSweep.SweepQuality | app/eval/candidate_sweep.py:44-67 | one such entry for each number of candidates asked for, with the agreement and the bounds above |
| RetrievalMetrics.ScanMrr | app/eval/metrics.py:24-31 | the early-return scan finds the first relevant rank |
| RetrievalMetrics.FirstRank | app/eval/metrics.py:28-31 | the rank it returns is the first relevant one, or 0 when there is none |
| RetrievalMetrics.RecallAtMostHit | app/eval/metrics.py:10-21 | recall is at most hit, both lie in [0, 1] and vanish together |
| RetrievalMetrics.MrrWithinHit | app/eval/metrics.py:10-31 | reciprocal rank lies between hit/k and hit |
| RetrievalMetrics.MetricsMonotone | app/eval/metrics.py:10-31 | looking further never lowers a metric |
| RetrievalMetrics.OrderDoesNotMatter | app/eval/metrics.py:10-21 | hit and recall depend on which keys were retrieved only |
| MetricValues.HitValue | app/eval/metrics.py:10-13 | hit is 1 if and only if some relevant key is among the first k, and 0 otherwise |
| MetricValues.RecallValue | app/eval/metrics.py:16-21 | recall times the number of relevant keys is the number of them among the first k |
| MetricValues.FullRecall | app/eval/metrics.py:16-21 | recall is 1 if and only if there are relevant keys and every one is among the first k |
| MetricValues.RecallAdds | app/eval/metrics.py:16-21 | recall times the number of relevant keys adds up over disjoint sets of them |
| MetricValues.RecallOneFurther | app/eval/metrics.py:16-21 | looking one further raises recall by 1/|relevant| when that finds a new relevant key, and otherwise not at all |
| MetricValues.MrrValue | app/eval/metrics.py:24-31 | reciprocal rank is 1/r if and only if the key at rank r <= k is relevant and none before it is, and 0 if and only if none of the first k is |
| RetrievalHealth.SeverityIsMaximum | app/observability/retrieval_health.py:44-50 | the overall severity is the maximum over the reasons |
| RetrievalHealth.SeverityLevels | app/observability/retrieval_health.py:36-50 | ok exactly without a degradation, warning exactly when truncation is the only one, and otherwise critical |
| RetrievalHealth.RegistryIsHistory | app/observability/retrieval_health.py:114-125 | after any sequence of reports and resets a reason is registered exactly when the latest event that lists it or whose source governs it listed it, with its time and detail |
| RetrievalHealth.CleanRun | app/observability/retrieval_health.py:98-125 | a clean run clears exactly the reasons its source can judge and leaves the rest as they were |
| RetrievalHealth.Health.Note | app/observability/retrieval_health.py:114-130 | a report updates registry, gauge and request context; the gauge is 1 exactly on registered reasons |
| RetrievalHealth.Health.Reset | app/observability/retrieval_health.py:179-187 | a reset clears the registry and zeroes the gauge |
| RetrievalHealth.Health.TakeSnapshot | app/observability/retrieval_health.py:139-176 | each fresh reason once with its age and detail, then each probe reason not among them; a reason reported within `ttl` is present, an older one absent unless a probe gives it, and every entry not of a probe has age at most `ttl`; severity is the maximum over all of them; degraded with severity ok exactly when `healthy` is the only reason |
| RetrievalHealth.HealthyReportHolds | app/observability/retrieval_health.py:114-125 | a report of `healthy` alone, which no caller makes, is registered and then all a snapshot holds |
| RetrievalHealth.OvertakenGaugeSticks | app/observability/retrieval_health.py:121-130 | a clean report that overtakes a bad one leaves the gauge at 1 for a reason no longer registered, and the other way round at 0 for one that is |
| RetrievalHealth.OvertakenGaugeIff | app/observability/retrieval_health.py:121-130 | when two reports set the gauge, outside the lock, in the opposite order to their registry updates, it agrees with the registry if and only if neither report lists a reason the other clears |
| DocumentIds.NumberRoundTrip | app/memory/__init__.py:66-71 | a generated or suffixed id ends in exactly the number it was made from |
| DocumentIds.BasePlain | app/memory/__init__.py:86 | a base holds only letters, digits, dashes and underscores and has none of the last two at its ends |
| DocumentIds.PlainKept | app/memory/__init__.py:86 | an id made of allowed characters passes the substitution unchanged |
| DocumentIds.KeptIsBase | app/memory/__init__.py:86 | an allowed id that starts and ends with a letter or digit is its own base |
| DocumentIds.BaseStrips | app/memory/__init__.py:86 | dashes and underscores around such an id are dropped, and nothing else |
| DocumentIds.RunBecomesDash | app/memory/__init__.py:86 | a run of other characters between two such parts becomes one dash |
| DocumentIds.CandidatesDiffer | app/memory/__init__.py:91-93 | the ids tried for one base are pairwise different |
| DocumentIds.TakenCandidates | app/memory/__init__.py:91-93 | so no more of them can be taken than there are documents |
| DocumentMemories.LastEntryWins | app/memory/__init__.py:33-53 | of the entries with one id the last is loaded, and no id without an entry |
| DocumentMemories.DocumentMemory.constructor | app/memory/__init__.py:33-53 | loading takes the valid entries, the last of each id, and moves the counter past them; an unreadable file starts fresh |
| DocumentMemories.DocumentMemory.UpdateCounterFromId | app/memory/__init__.py:66-71 | the counter ends above the number at the end of the id, and moves only for it |
| DocumentMemories.DocumentMemory.GenerateId | app/memory/__init__.py:76-81 | the first candidate is always free, of every id ever stored in the process, removed ones included |
| DocumentMemories.DocumentMemory.NormaliseId | app/memory/__init__.py:83-95 | ends within one try more than there are documents, with the first candidate not in use; an allowed id that starts and ends with a letter or digit and is not in use is kept as it is |
| DocumentMemories.DocumentMemory.Add | app/memory/__init__.py:108-114 | never overwrites a document and keeps every other; stores an allowed id that is not in use unchanged |
| DocumentMemories.DocumentMemory.Remove | app/memory/__init__.py:116-122 | removes that document only; its id stays spent for generated ids |

## Left out

- Local-queue mode (`use_local_queue`): the in-memory queue and its mix with table claims are not modelled; immediate processing appears in one worker's processing and in the results on it in `IngestLease` only.
- IngestServices.IngestService.RegisterUpload: states database-queue mode only, because an upload that is processed immediately nests a worker inside the request.
- IngestServices.IngestWorker.ProcessJob: does not model a database error between two commits other than as a worker crash, because drivers and sessions are taken as atomic commits.
- IngestServices.IngestWorker.Drain: assumes no outside enqueue while it drains, as one worker cannot bound what others add. Without a limit it asks for a bound on its rounds; `IngestEndless.DrainEndsIff` says which tables have one for every clock.
- IngestWorld.FirstUploadAlwaysFails: speaks of immediate processing; `IngestRetries.QueueGivesUp` is the same accounting for database-queue mode.
- Scheduling (APScheduler, asyncio tasks, polling intervals, shutdown) beyond the interleaving of commits.
- Pages and chunk rows left by an interrupted ingestion of the same file: each ingestion is modelled from an empty set of its own rows.
- IngestPages.PageWriter.IngestFile: a file row deleted between claim and ingestion returns 0 in the code before anything is written; the model starts after that check.
- Preflight checks, logging, verdicts and subprocess handling of the reranker runner: only which steps run, in which order, and what they leave behind.
- RerankerPlan.DependsOnWhatItReads: the golden questions, the store and the teacher model come from outside the pipeline; what `pravo_pairs` and `mrtydi_pairs` read is not named on their command lines.
- `select_chunks`, `group_by_source`, `write_pairs` and the two-phase generation path of the builder: straight-line variants of what is modelled.
- RerankDataset.DoneMarks: does not model JSON syntax; a line is a record, a record without source key, blank, or torn.
- RerankResume.ResumeExactIff: speaks of scorers that give one score per pair; with one that miscounts a run stops with an error (`RerankBuilder.PairsFile.GenerateScoreFlush`) and is never completed.
- Text normalisation of questions and of filter fields: an arbitrary function, or applied beforehand.
- FaissStore.FaissVectorStore.RebuildIndex: leaves out the branch for an embedder that returns no rows for a non-empty list, because a row-wise embedder never does.
- FaissSearch.ExactIsBest: takes the index library's ranking as given, ties included.
- Chunker.TokenPieces: says which runs of tokens the pieces decode, not that they rebuild the text, since decoding runs of tokens need not join to the text.
- `_handle_small_token_window`, document parsers, OCR, embedding and language models, metadata extraction.
- OpenWindows.IterateWindows: asks for a window of at least 1, which both callers' normalisation guarantees.
- CandidateSweep.SweepMatchesProduction: asks for a pair-wise model; with another one scores may depend on the batch, as `RerankOrder.CrossEncoderReranker.Rerank` says for any model.
- CandidateSweep.SweepQuality: asks for one teacher score per shortlisted key, as its documentation does; the code raises an index error otherwise.
- RetrievalHealth.Health.TakeSnapshot: ages are not rounded to one decimal, and registry entries appear in an unspecified order before the probes.
- DocumentIds.NumberRoundTrip: digits are 0 to 9; the regular expression of the code also takes other Unicode digits and a final line feed in a hand-edited file.
- JSON persistence of the document memory after each change, and its lock.
- HTTP routes, authentication, providers, training scripts, migrations and the frontend.
