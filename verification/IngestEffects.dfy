/** What one upload and one whole processing leave in the rows of a file. */
module IngestEffects {
  import opened Options
  import opened IngestRows
  import opened IngestWorld
  import IngestAgreement
  import IngestRounds

  // ------------------------------------------------------------------------- uploads

  /** The digest's file and its document. */
  ghost predicate Filed(db: Db, key: Key) {
    && key in db.fileOf && db.fileOf[key] in db.files && db.files[db.fileOf[key]].docId.Some?
    && db.files[db.fileOf[key]].docId.value in db.docs
  }

  function FileOf(db: Db, key: Key): FileRow
    requires Filed(db, key)
  {
    db.files[db.fileOf[key]]
  }

  function DocOf(db: Db, key: Key): DocRow
    requires Filed(db, key)
  {
    db.docs[FileOf(db, key).docId.value]
  }

  /** One job was added for the file, QUEUED on attempt 0, and no other row changed. */
  predicate JobAdded(a: Db, b: Db, f: nat, docId: Option<nat>, now: Time) {
    && b.nextJob == a.nextJob + 1 && a.nextJob in b.jobs && b.jobs == a.jobs[a.nextJob := b.jobs[a.nextJob]]
    && var row := b.jobs[a.nextJob];
       && row.jobType == "ingest" && row.status == Queued && row.priority == 0 && row.attempt == 0
       && row.createdAt == now && row.updatedAt == now && row.startedAt == None && row.finishedAt == None
       && row.payload == Payload(Some(f), docId, Some(0), None, false) && row.error == None
  }

  /** The first upload of a digest records what was uploaded and queues it. */
  lemma FirstUpload(db: Db, key: Key, upload: SourceFile, mime: Option<string>, now: Time)
    requires IngestAgreement.Tables(db) && key !in db.fileOf
    ensures var end := Register(db, key, upload, mime, now);
      && Filed(end, key) && end.fileOf[key] !in db.files && FileOf(end, key).docId.value !in db.docs
      && FileOf(end, key).key == key && FileOf(end, key).upload == upload && FileOf(end, key).status == Queued
      && FileOf(end, key).retries == 0 && FileOf(end, key).error == None && FileOf(end, key).chunks == None
      && FileOf(end, key).updatedAt == now
      && DocOf(end, key).key == key && DocOf(end, key).status == Queued
      && DocOf(end, key).error == None && DocOf(end, key).chunks == None
      && DocOf(end, key).mime == (if mime.Some? then mime.value else "application/octet-stream")
      && JobAdded(db, end, end.fileOf[key], FileOf(end, key).docId, now)
  {
    assert key !in db.docOf && db.nextFile !in db.files && db.nextDoc !in db.docs;
    hide IngestAgreement.Tables, Register, JobAdded;
    NewRows(db, key, upload, mime, now);
  }

  lemma NewRows(db: Db, key: Key, upload: SourceFile, mime: Option<string>, now: Time)
    requires key !in db.fileOf && key !in db.docOf
    ensures var end := Register(db, key, upload, mime, now);
      && end.fileOf == db.fileOf[key := db.nextFile] && db.nextFile in end.files && db.nextDoc in end.docs
      && end.files[db.nextFile] == FileRow(key, Some(db.nextDoc), upload, Queued, 0, None, None, now)
      && end.docs[db.nextDoc]
           == DocRow(key, if mime.Some? then mime.value else "application/octet-stream", Queued, None, None)
      && JobAdded(db, end, db.nextFile, Some(db.nextDoc), now)
  {
  }

  /** The upload of a FAILED digest takes the new path, name and size, and starts over. */
  lemma UploadAfterFailure(db: Db, key: Key, upload: SourceFile, mime: Option<string>, now: Time)
    requires IngestAgreement.Tables(db) && key in db.fileOf && db.files[db.fileOf[key]].status == Failed
    ensures var end := Register(db, key, upload, mime, now);
      && Filed(db, key) && Filed(end, key) && end.fileOf == db.fileOf
      && FileOf(end, key)
           == FileOf(db, key).(upload := upload, status := Queued, retries := 0, error := None, chunks := None,
                               updatedAt := now)
      && DocOf(end, key)
           == DocOf(db, key).(status := Queued, error := None, chunks := None,
                              mime := if mime.Some? then mime.value else DocOf(db, key).mime)
      && JobAdded(db, end, end.fileOf[key], FileOf(end, key).docId, now)
  {
    KnownDigest(db, key);
    hide IngestAgreement.Tables;
  }

  /** The upload of any other known digest starts nothing, and keeps path, name and size. */
  lemma UploadAgain(db: Db, key: Key, upload: SourceFile, mime: Option<string>, now: Time)
    requires IngestAgreement.Tables(db) && key in db.fileOf && db.files[db.fileOf[key]].status != Failed
    ensures var end := Register(db, key, upload, mime, now);
      && Filed(db, key) && Filed(end, key) && end.fileOf == db.fileOf && end.jobs == db.jobs
      && FileOf(end, key) == FileOf(db, key).(updatedAt := now)
      && DocOf(end, key)
           == DocOf(db, key).(chunks := None, mime := if mime.Some? then mime.value else DocOf(db, key).mime)
  {
    KnownDigest(db, key);
    hide IngestAgreement.Tables;
  }

  lemma KnownDigest(db: Db, key: Key)
    requires IngestAgreement.Tables(db) && key in db.fileOf
    ensures Filed(db, key) && key in db.docOf && FileOf(db, key).docId == Some(db.docOf[key])
    ensures DocOf(db, key).status == FileOf(db, key).status
  {
    IngestAgreement.OwnDocument(db, key);
  }

  // -------------------------------------------------------------------------- claims

  /** What a claim leaves of everything but the claimed row. */
  predicate OnlyRow(a: Db, b: Db, id: nat) {
    id in a.jobs && id in b.jobs && b == a.(jobs := a.jobs[id := b.jobs[id]])
  }

  /** A first claim marks the row PROCESSING and keeps its attempt, its error and when it was
      first started; its job is the one the row describes. */
  lemma FirstClaim(db: Db, id: nat, now: Time)
    requires id in db.jobs && db.jobs[id].status == Queued && db.jobs[id].payload.fileId.Some?
    ensures var (end, job) := Claim(db, id, Queued, now);
      && OnlyRow(db, end, id)
      && end.jobs[id] == db.jobs[id].(status := Processing, updatedAt := now, startedAt := end.jobs[id].startedAt)
      && end.jobs[id].startedAt == (if db.jobs[id].startedAt == None then Some(now) else db.jobs[id].startedAt)
      && job == Some(Job(id, db.jobs[id].payload.fileId.value, db.jobs[id].payload.docId,
                         if db.jobs[id].payload.attempt == None then db.jobs[id].attempt
                         else db.jobs[id].payload.attempt.value))
  {
  }

  /** A recovery counts one more attempt, in the row and in its payload, and says so. */
  lemma RecoveryClaim(db: Db, id: nat, now: Time)
    requires id in db.jobs && db.jobs[id].status == Processing && db.jobs[id].payload.fileId.Some?
    ensures var (end, job) := Claim(db, id, Processing, now);
      && OnlyRow(db, end, id)
      && end.jobs[id].status == Processing && end.jobs[id].updatedAt == now
      && end.jobs[id].attempt == db.jobs[id].attempt + 1 && end.jobs[id].error == Some("RECOVERED_STUCK_JOB")
      && end.jobs[id].payload.attempt == Some(db.jobs[id].attempt + 1) && end.jobs[id].payload.recovered
      && end.jobs[id].startedAt == (if db.jobs[id].startedAt == None then Some(now) else db.jobs[id].startedAt)
      && job == Some(Job(id, db.jobs[id].payload.fileId.value, db.jobs[id].payload.docId, db.jobs[id].attempt + 1))
  {
  }

  /** A claim fails exactly when the row is gone, has left the status it was selected in, or
      names no file; then nothing changes, its status included. */
  lemma ClaimRefused(db: Db, id: nat, observed: Status, now: Time)
    ensures var (end, job) := Claim(db, id, observed, now);
      && (job == None <==> (id in db.jobs ==> db.jobs[id].status != observed || db.jobs[id].payload.fileId == None))
      && (job == None ==> end == db)
  {
  }

  // --------------------------------------------------------------------------- begins

  /** A begin shows the file, its document and its job PROCESSING, without what earlier
      attempts left. */
  lemma BeginShows(db: Db, job: Job, now: Time)
    requires Processable(db, job)
    ensures var end := Begin(db, job, now).0;
      && Settled(end, job, Processing, None, None) && end.files[job.fileId].updatedAt == now
      && end.files[job.fileId].upload == db.files[job.fileId].upload
      && (job.rowId in db.jobs ==>
            end.jobs[job.rowId]
              == db.jobs[job.rowId].(status := Processing, startedAt := Some(now), updatedAt := now))
  {
    assert IngestAgreement.StatusAgrees(db, job.fileId);
    hide IngestAgreement.Tables, IngestAgreement.StatusAgrees;
  }

  /** Without its file a job fails, at the begin and at the end, and nothing else changes. */
  lemma FileGone(db: Db, job: Job, outcome: Outcome, now: Time)
    requires job.fileId !in db.files
    ensures !Begin(db, job, now).1 && Begin(db, job, now).0 == Finalize(db, job, outcome, now)
    ensures var end := Finalize(db, job, outcome, now);
      if job.rowId !in db.jobs then end == db
      else
        && OnlyRow(db, end, job.rowId)
        && end.jobs[job.rowId]
             == db.jobs[job.rowId].(status := Failed, error := Some("FILE_MISSING"), finishedAt := Some(now), updatedAt := now)
  {
  }

  /** For a COMPLETED file nothing is ingested: a QUEUED job is COMPLETED with it, any other
      job and every other row stay as they are. */
  lemma AlreadyDone(db: Db, job: Job, now: Time)
    requires job.fileId in db.files && db.files[job.fileId].status == Completed
    ensures var (end, proceed) := Begin(db, job, now);
      && !proceed
      && if job.rowId in db.jobs && db.jobs[job.rowId].status == Queued then
           && OnlyRow(db, end, job.rowId)
           && end.jobs[job.rowId] == db.jobs[job.rowId].(status := Completed, finishedAt := Some(now), updatedAt := now)
         else end == db
  {
  }

  // ---------------------------------------------------------------------- processing

  /** The rows a job's worker writes: its file, its file's document, and its job if it is there. */
  ghost predicate Processable(db: Db, job: Job) {
    && IngestAgreement.Tables(db) && RowIds(db)
    && job.fileId in db.files && db.files[job.fileId].status != Completed && job.docId == db.files[job.fileId].docId
  }

  /** Status, error and chunk count of the file and its document. */
  predicate Settled(db: Db, job: Job, status: Status, error: Option<string>, chunks: Option<nat>) {
    && job.fileId in db.files && job.docId.Some? && job.docId.value in db.docs
    && db.files[job.fileId].status == status && db.files[job.fileId].error == error
    && db.files[job.fileId].chunks == chunks
    && db.docs[job.docId.value].status == status && db.docs[job.docId.value].error == error
    && db.docs[job.docId.value].chunks == chunks
  }

  predicate JobSettled(a: Db, b: Db, job: Job, status: Status, error: Option<string>, chunks: nat) {
    job.rowId in a.jobs ==>
      && job.rowId in b.jobs && b.jobs[job.rowId].status == status && b.jobs[job.rowId].error == error
      && b.jobs[job.rowId].finishedAt.Some? && b.jobs[job.rowId].payload.chunks == Some(chunks)
      && b.jobs[job.rowId].payload.attempt == Some(job.attempt)
      && b.jobs[job.rowId].payload.fileId == a.jobs[job.rowId].payload.fileId
      && b.jobs[job.rowId].attempt == a.jobs[job.rowId].attempt
  }

  lemma BeginLeaves(db: Db, job: Job, now: Time)
    requires Processable(db, job)
    ensures var (db1, proceed) := Begin(db, job, now);
      && proceed && db1.nextJob == db.nextJob && db1.jobs.Keys == db.jobs.Keys
      && job.fileId in db1.files && job.docId.Some? && job.docId.value in db1.docs
      && db1.files[job.fileId].docId == job.docId && db1.files[job.fileId].retries == db.files[job.fileId].retries
      && (job.rowId in db.jobs ==>
            db1.jobs[job.rowId].payload == db.jobs[job.rowId].payload && db1.jobs[job.rowId].attempt == db.jobs[job.rowId].attempt)
  {
    assert IngestAgreement.StatusAgrees(db, job.fileId);
    hide IngestAgreement.Tables, IngestAgreement.StatusAgrees;
  }

  lemma FinalizeLeaves(db: Db, job: Job, outcome: Outcome, now: Time)
    requires job.fileId in db.files && db.files[job.fileId].docId == job.docId && job.docId.Some? && job.docId.value in db.docs
    ensures var end := Finalize(db, job, outcome, now);
      && end.nextJob == db.nextJob && end.jobs.Keys == db.jobs.Keys && end.files.Keys == db.files.Keys
      && end.files[job.fileId].docId == job.docId
      && (outcome.Ok? ==>
            && Settled(end, job, Completed, None, Some(outcome.chunks))
            && JobSettled(db, end, job, Completed, None, outcome.chunks)
            && end.files[job.fileId].retries == db.files[job.fileId].retries)
      && (outcome.Error? ==>
            && Settled(end, job, Failed, Some(outcome.message), Some(0))
            && JobSettled(db, end, job, Failed, Some(outcome.message), 0)
            && end.files[job.fileId].retries == job.attempt + 1)
  {
  }

  /** Begin and finalize together, on a file that is there and not COMPLETED. */
  lemma OneAttempt(db: Db, job: Job, outcome: Outcome, t0: Time, t1: Time)
    requires Processable(db, job)
    ensures var end := Finalize(Begin(db, job, t0).0, job, outcome, t1);
      && Begin(db, job, t0).1 && RowIds(end) && end.nextJob == db.nextJob
      && job.fileId in end.files && end.files[job.fileId].docId == job.docId
      && (outcome.Ok? ==>
            && Settled(end, job, Completed, None, Some(outcome.chunks))
            && JobSettled(db, end, job, Completed, None, outcome.chunks)
            && end.files[job.fileId].retries == db.files[job.fileId].retries)
      && (outcome.Error? ==>
            && Settled(end, job, Failed, Some(outcome.message), Some(0))
            && JobSettled(db, end, job, Failed, Some(outcome.message), 0)
            && end.files[job.fileId].retries == job.attempt + 1)
  {
    assert RowIds(db);
    BeginLeaves(db, job, t0);
    hide Begin, Finalize, Processable, Settled;
    FinalizeLeaves(Begin(db, job, t0).0, job, outcome, t1);
  }

  /** A successful processing leaves the file, its document and its job COMPLETED with the
      number of chunks that ingestion returned. */
  lemma SuccessRecorded(env: Env, w: World, job: Job)
    requires Processable(w.db, job) && env.ingest(w.calls).Ok?
    ensures var end := Process(env, w, job).db;
      && Settled(end, job, Completed, None, Some(env.ingest(w.calls).chunks))
      && JobSettled(w.db, end, job, Completed, None, env.ingest(w.calls).chunks)
      && end.files[job.fileId].retries == w.db.files[job.fileId].retries
  {
    OneAttempt(w.db, job, env.ingest(w.calls), env.clock(w.ticks), env.clock(w.ticks + 1));
    hide Begin, Finalize, Processable, Settled, JobSettled;
  }

  /** The world when ingestion has just failed and that is on record. */
  function AfterFailed(env: Env, w: World, job: Job): World {
    World(Finalize(Begin(w.db, job, env.clock(w.ticks)).0, job, env.ingest(w.calls), env.clock(w.ticks + 1)),
          w.ticks + 2, w.calls + 1, w.slept, w.attempts + [(job.fileId, job.attempt)])
  }

  lemma FailedAttempt(env: Env, w: World, job: Job)
    requires Processable(w.db, job) && env.ingest(w.calls).Error?
    ensures var failed := AfterFailed(env, w, job);
      && Process(env, w, job) == HandleFailure(env, failed, job)
      && RowIds(failed.db) && failed.db.nextJob == w.db.nextJob
      && job.fileId in failed.db.files && failed.db.files[job.fileId].docId == job.docId
      && failed.db.files[job.fileId].retries == job.attempt + 1
      && Settled(failed.db, job, Failed, Some(env.ingest(w.calls).message), Some(0))
      && JobSettled(w.db, failed.db, job, Failed, Some(env.ingest(w.calls).message), 0)
  {
    OneAttempt(w.db, job, env.ingest(w.calls), env.clock(w.ticks), env.clock(w.ticks + 1));
    hide Begin, Finalize, Processable, Settled, JobSettled, HandleFailure, RowIds;
  }

  lemma RowsStay(env: Env, w: World, job: Job, a: Db, message: string)
    requires RowIds(w.db) && JobSettled(a, w.db, job, Failed, Some(message), 0)
    ensures JobSettled(a, HandleFailure(env, w, job).db, job, Failed, Some(message), 0)
  {
    hide HandleFailure;
    IngestRounds.FailureOthers(env, w, job);
    IngestRounds.OthersMean(w.db, HandleFailure(env, w, job).db, w.db.nextJob);
    if job.rowId in w.db.jobs { IngestRounds.InBounds(w.db, job.rowId); }
  }

  /** A failed one leaves its job FAILED with the message, whatever its retries do; on the last
      attempt the file and its document are left so too. */
  lemma FailureRecorded(env: Env, w: World, job: Job)
    requires Processable(w.db, job) && env.ingest(w.calls).Error?
    ensures var end := Process(env, w, job).db;
      var message := env.ingest(w.calls).message;
      && JobSettled(w.db, end, job, Failed, Some(message), 0)
      && (job.attempt >= env.maxRetries ==>
            Settled(end, job, Failed, Some(message), Some(0)) && end.files[job.fileId].retries == job.attempt + 1)
  {
    hide AfterFailed, JobSettled, Process, HandleFailure, Processable, RowIds;
    FailedAttempt(env, w, job);
    RowsStay(env, AfterFailed(env, w, job), job, w.db, env.ingest(w.calls).message);
    if job.attempt >= env.maxRetries { LastFailure(env, AfterFailed(env, w, job), job); }
  }

  lemma LastFailure(env: Env, w: World, job: Job)
    requires job.attempt >= env.maxRetries
    ensures HandleFailure(env, w, job) == w
  {
  }

  /** The file waits for its next attempt with the error of the last one, its document without,
      and one new job is queued for it. */
  predicate Waiting(a: Db, b: Db, job: Job, message: string) {
    && job.fileId in b.files && job.docId.Some? && job.docId.value in b.docs
    && b.files[job.fileId].status == Queued && b.files[job.fileId].retries == job.attempt + 1
    && b.files[job.fileId].error == Some(message)
    && b.docs[job.docId.value].status == Queued && b.docs[job.docId.value].error == None
    && b.docs[job.docId.value].chunks == None
    && b.nextJob == a.nextJob + 1 && a.nextJob in b.jobs
    && var row := b.jobs[a.nextJob];
       && row.status == Queued && row.jobType == "ingest" && row.attempt == job.attempt + 1
       && row.payload == Payload(Some(job.fileId), job.docId, Some(job.attempt + 1), None, false)
  }

  lemma RequeueLeaves(db: Db, job: Job, message: string, t0: Time, t1: Time)
    requires Settled(db, job, Failed, Some(message), Some(0)) && db.files[job.fileId].docId == job.docId
    ensures Waiting(db, Enqueue(Requeue(db, job.fileId, job.attempt + 1, t0), job.fileId, job.docId, job.attempt + 1, t1),
                    job, message)
  {
  }

  lemma QueuedRetry(env: Env, w: World, job: Job)
    requires !env.autoProcess && job.attempt < env.maxRetries && job.fileId in w.db.files
    ensures HandleFailure(env, w, job).db
      == Enqueue(Requeue(w.db, job.fileId, job.attempt + 1, env.clock(w.ticks)), job.fileId,
                 w.db.files[job.fileId].docId, job.attempt + 1, env.clock(w.ticks + 1))
  {
    hide Requeue, Enqueue, Delay;
  }

  /** With attempts left, in database-queue mode. */
  lemma RetryRecorded(env: Env, w: World, job: Job)
    requires Processable(w.db, job) && env.ingest(w.calls).Error? && job.attempt < env.maxRetries && !env.autoProcess
    ensures Waiting(w.db, Process(env, w, job).db, job, env.ingest(w.calls).message)
  {
    FailedAttempt(env, w, job);
    hide *;
    var failed := AfterFailed(env, w, job);
    QueuedRetry(env, failed, job);
    RequeueLeaves(failed.db, job, env.ingest(w.calls).message, env.clock(failed.ticks), env.clock(failed.ticks + 1));
    WaitingFrom(w.db, failed.db, HandleFailure(env, failed, job).db, job, env.ingest(w.calls).message);
  }

  lemma WaitingFrom(a: Db, b: Db, c: Db, job: Job, message: string)
    requires Waiting(b, c, job, message) && a.nextJob == b.nextJob
    ensures Waiting(a, c, job, message)
  {
  }
}
