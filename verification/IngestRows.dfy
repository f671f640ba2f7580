/** The three ingest tables and the effect of every commit on them.

    Each function below is one committed transaction of `app/ingest/service.py`
    as a function from tables to tables.  `IngestService` proves its statement-by-
    statement methods against these functions; `IngestProtocol` interleaves them. */
module IngestRows {

  import opened Options

  /** Seconds; every clock reading and duration is of this type. */
  type Time = real

  datatype Status = Queued | Processing | Completed | Failed

  /** The unique constraint of the file and document tables. */
  datatype Key = Key(tenant: string, sha: string)

  datatype SourceFile = SourceFile(path: string, filename: string, size: nat)

  datatype FileRow = FileRow(
    key: Key, docId: Option<nat>, upload: SourceFile, status: Status, retries: int,
    error: Option<string>, chunks: Option<nat>, updatedAt: Time)

  datatype DocRow = DocRow(
    key: Key, mime: string, status: Status, error: Option<string>, chunks: Option<nat>)

  datatype Payload = Payload(
    fileId: Option<nat>, docId: Option<nat>, attempt: Option<nat>,
    chunks: Option<nat>, recovered: bool)

  datatype JobRow = JobRow(
    jobType: string, status: Status, priority: int, attempt: nat, error: Option<string>,
    payload: Payload, createdAt: Time, updatedAt: Time,
    startedAt: Option<Time>, finishedAt: Option<Time>)

  /** What a worker carries after a claim.  `rowId` may have lost its row. */
  datatype Job = Job(rowId: nat, fileId: nat, docId: Option<nat>, attempt: nat)

  /** `fileOf` and `docOf` are the unique indexes on (tenant, sha256); ids are never reused. */
  datatype Db = Db(
    files: map<nat, FileRow>, docs: map<nat, DocRow>, jobs: map<nat, JobRow>,
    fileOf: map<Key, nat>, docOf: map<Key, nat>,
    nextFile: nat, nextDoc: nat, nextJob: nat)

  /** Job ids come from a sequence. */
  ghost predicate RowIds(db: Db) {
    forall j :: j in db.jobs ==> j < db.nextJob
  }

  const INGEST: string := "ingest"
  const DEFAULT_MIME: string := "application/octet-stream"

  const EMPTY_DB: Db := Db(map[], map[], map[], map[], map[], 0, 0, 0)

  // ---------------------------------------------------------------- enqueue

  function NewJobRow(fileId: nat, docId: Option<nat>, attempt: nat, now: Time): JobRow {
    JobRow(INGEST, Queued, 0, attempt, None,
           Payload(Some(fileId), docId, Some(attempt), None, false), now, now, None, None)
  }

  function Enqueue(db: Db, fileId: nat, docId: Option<nat>, attempt: nat, now: Time): Db {
    db.(jobs := db.jobs[db.nextJob := NewJobRow(fileId, docId, attempt, now)],
        nextJob := db.nextJob + 1)
  }

  // --------------------------------------------------------------- register

  /** The document row after an upload of `key`, and its id. */
  function RegisterDoc(db: Db, key: Key, mime: Option<string>): (Db, nat) {
    if key in db.docOf && db.docOf[key] in db.docs then
      var d := db.docOf[key];
      var prior := db.docs[d];
      var failed := prior.status == Failed;
      (db.(docs := db.docs[d := prior.(
             mime := if mime.Some? then mime.value else prior.mime,
             status := if failed then Queued else prior.status,
             error := if failed then None else prior.error,
             chunks := None)]), d)
    else
      var d := db.nextDoc;
      (db.(docs := db.docs[d := DocRow(key, if mime.Some? then mime.value else DEFAULT_MIME, Queued, None, None)],
           docOf := db.docOf[key := d], nextDoc := d + 1), d)
  }

  /** The file row after an upload, its id, and whether a job must be queued. */
  function RegisterFile(db: Db, key: Key, upload: SourceFile, docId: nat, now: Time): (Db, nat, bool) {
    if key in db.fileOf && db.fileOf[key] in db.files then
      var f := db.fileOf[key];
      var prior := db.files[f].(updatedAt := now, docId := Some(docId));
      if prior.status == Failed then
        (db.(files := db.files[f := prior.(upload := upload, status := Queued, retries := 0,
                                          error := None, chunks := None)]), f, true)
      else
        (db.(files := db.files[f := prior]), f, false)
    else
      var f := db.nextFile;
      (db.(files := db.files[f := FileRow(key, Some(docId), upload, Queued, 0, None, None, now)],
           fileOf := db.fileOf[key := f], nextFile := f + 1), f, true)
  }

  function Register(db: Db, key: Key, upload: SourceFile, mime: Option<string>, now: Time): Db {
    var (db1, d) := RegisterDoc(db, key, mime);
    var (db2, f, queued) := RegisterFile(db1, key, upload, d, now);
    if queued then Enqueue(db2, f, Some(d), 0, now) else db2
  }

  // ------------------------------------------------------------------ claim

  predicate Eligible(row: JobRow, staleBefore: Time) {
    row.jobType == INGEST &&
    (row.status == Queued || (row.status == Processing && row.updatedAt <= staleBefore))
  }

  /** ORDER BY queued-first, priority DESC, created_at. */
  predicate NotAfter(a: JobRow, b: JobRow) {
    var ra, rb := if a.status == Queued then 0 else 1, if b.status == Queued then 0 else 1;
    ra < rb || (ra == rb && (a.priority > b.priority
                             || (a.priority == b.priority && a.createdAt <= b.createdAt)))
  }

  predicate IsHead(db: Db, id: nat, staleBefore: Time) {
    && id in db.jobs && Eligible(db.jobs[id], staleBefore)
    && forall other :: other in db.jobs && Eligible(db.jobs[other], staleBefore) ==>
         NotAfter(db.jobs[id], db.jobs[other])
  }

  /** The job described by a row, or None when its payload has no usable file id. */
  function JobOf(row: JobRow, id: nat): Option<Job> {
    if row.payload.fileId.None? then None
    else Some(Job(id, row.payload.fileId.value, row.payload.docId,
                  if row.payload.attempt.Some? then row.payload.attempt.value else row.attempt))
  }

  function ClaimedRow(row: JobRow, now: Time): JobRow {
    var taken := row.(status := Processing, updatedAt := now,
                      startedAt := row.startedAt.Or(Some(now)));
    if row.status == Processing then
      taken.(attempt := row.attempt + 1, error := Some("RECOVERED_STUCK_JOB"),
             payload := row.payload.(attempt := Some(row.attempt + 1), recovered := true))
    else taken
  }

  /** The guarded UPDATE and the rest of the claim transaction.  Without a row in
      the observed status, or without a usable payload, nothing is committed. */
  function Claim(db: Db, id: nat, observed: Status, now: Time): (Db, Option<Job>) {
    if id !in db.jobs || db.jobs[id].status != observed then (db, None)
    else
      var row := ClaimedRow(db.jobs[id], now);
      var job := JobOf(row, id);
      if job.None? then (db, None)
      else (db.(jobs := db.jobs[id := row]), job)
  }

  // ------------------------------------------------------ begin and finalize

  function FinishRow(db: Db, id: nat, status: Status, error: Option<string>, now: Time): Db {
    if id !in db.jobs then db
    else db.(jobs := db.jobs[id := db.jobs[id].(status := status, error := error,
                                                finishedAt := Some(now), updatedAt := now)])
  }

  function FailMissing(db: Db, rowId: nat, now: Time): Db {
    FinishRow(db, rowId, Failed, Some("FILE_MISSING"), now)
  }

  function SetDoc(docs: map<nat, DocRow>, id: Option<nat>, status: Status,
                  error: Option<string>, chunks: Option<nat>): map<nat, DocRow>
  {
    if id.Some? && id.value in docs
    then docs[id.value := docs[id.value].(status := status, error := error, chunks := chunks)]
    else docs
  }

  /** `_begin_processing`: the new tables and whether ingestion proceeds. */
  function Begin(db: Db, job: Job, now: Time): (Db, bool) {
    if job.fileId !in db.files then (FailMissing(db, job.rowId, now), false)
    else
      var file := db.files[job.fileId];
      if file.status == Completed then
        if job.rowId in db.jobs && db.jobs[job.rowId].status == Queued then
          (FinishRow(db, job.rowId, Completed, db.jobs[job.rowId].error, now), false)
        else (db, false)
      else
        (db.(files := db.files[job.fileId := file.(status := Processing, error := None,
                                                   chunks := None, updatedAt := now)],
             docs := SetDoc(db.docs, job.docId.Or(file.docId), Processing, None, None),
             jobs := if job.rowId in db.jobs
                     then db.jobs[job.rowId := db.jobs[job.rowId].(status := Processing,
                                                                   startedAt := Some(now), updatedAt := now)]
                     else db.jobs), true)
  }

  /** The result of one `_ingest_file` call. */
  datatype Outcome = Ok(chunks: nat) | Error(message: string)

  function Finalize(db: Db, job: Job, outcome: Outcome, now: Time): Db {
    if job.fileId !in db.files then FailMissing(db, job.rowId, now)
    else
      var file := db.files[job.fileId];
      var status := if outcome.Ok? then Completed else Failed;
      var error := if outcome.Ok? then None else Some(outcome.message);
      var chunks := if outcome.Ok? then outcome.chunks else 0;
      db.(files := db.files[job.fileId := file.(status := status, updatedAt := now, error := error,
                              chunks := Some(chunks),
                              retries := if outcome.Ok? then file.retries else job.attempt + 1)],
          docs := SetDoc(db.docs, job.docId.Or(file.docId), status, error, Some(chunks)),
          jobs := if job.rowId in db.jobs then
                    var row := db.jobs[job.rowId];
                    db.jobs[job.rowId := row.(status := status, finishedAt := Some(now), updatedAt := now,
                              payload := row.payload.(chunks := Some(chunks), attempt := Some(job.attempt)),
                              error := error)]
                  else db.jobs)
  }

  // ---------------------------------------------------------------- requeue

  /** The commit of `_handle_failure`; `attempt` is already incremented. */
  function Requeue(db: Db, fileId: nat, attempt: nat, now: Time): Db {
    if fileId !in db.files then db
    else
      var file := db.files[fileId];
      db.(files := db.files[fileId := file.(status := Queued, retries := attempt, updatedAt := now)],
          docs := SetDoc(db.docs, file.docId, Queued, None, None))
  }

  // ------------------------------------------------------------ maintenance

  predicate Expired(row: JobRow, cutoff: Time) {
    row.finishedAt.Some? && row.finishedAt.value < cutoff
  }

  predicate StuckFile(file: FileRow, cutoff: Time) {
    file.status == Processing && file.updatedAt < cutoff
  }

  predicate StuckDoc(db: Db, d: nat, cutoff: Time) {
    exists f | f in db.files :: StuckFile(db.files[f], cutoff) && db.files[f].docId == Some(d)
  }

  const STALE: Option<string> := Some("STALE_PROCESSING")

  function Maintain(db: Db, now: Time, retention: Time, timeout: Time): Db {
    db.(jobs := map j | j in db.jobs && !Expired(db.jobs[j], now - retention) :: db.jobs[j],
        files := map f | f in db.files ::
                   if StuckFile(db.files[f], now - timeout)
                   then db.files[f].(status := Failed, error := STALE, updatedAt := now)
                   else db.files[f],
        docs := map d | d in db.docs ::
                  if StuckDoc(db, d, now - timeout)
                  then db.docs[d].(status := Failed, error := STALE)
                  else db.docs[d])
  }
}
