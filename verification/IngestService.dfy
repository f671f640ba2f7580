/** The service and its worker, statement by statement, against the functions of
    `IngestRows` and `IngestWorld`. */
module IngestServices {
  import opened Options
  import opened IngestRows
  import opened IngestWorld
  import opened IngestDrain
  import opened IngestRounds

  lemma MaintainParts(a: Db, b: Db, now: Time, retention: Time, timeout: Time)
    requires b == a.(files := b.files, docs := b.docs, jobs := b.jobs)
    requires b.jobs == map j | j in a.jobs && !Expired(a.jobs[j], now - retention) :: a.jobs[j]
    requires b.files.Keys == a.files.Keys && b.docs.Keys == a.docs.Keys
    requires forall f :: f in b.files ==>
      b.files[f] == if StuckFile(a.files[f], now - timeout)
                    then a.files[f].(status := Failed, error := STALE, updatedAt := now) else a.files[f]
    requires forall d :: d in b.docs ==>
      b.docs[d] == if StuckDoc(a, d, now - timeout)
                   then a.docs[d].(status := Failed, error := STALE) else a.docs[d]
    ensures b == Maintain(a, now, retention, timeout)
  {
    var m := Maintain(a, now, retention, timeout);
    assert b.files == m.files;
    assert b.docs == m.docs;
  }

  lemma StaleDocuments(db: Db, stale: set<nat>, cutoff: Time)
    requires stale == set f: nat | f in db.files && StuckFile(db.files[f], cutoff)
    ensures forall d: nat :: (exists f :: f in stale && db.files[f].docId == Some(d)) <==> StuckDoc(db, d, cutoff)
  {
    hide StuckFile;
  }

  /** What one call of `dequeue_next_job` at time `now` may do to the tables. */
  ghost predicate Dequeued(a: Db, b: Db, job: Option<Job>, now: Time, timeout: Time) {
    if forall j :: j in a.jobs ==> !Eligible(a.jobs[j], now - timeout) then job.None? && b == a
    else exists id :: IsHead(a, id, now - timeout) && (b, job) == Claim(a, id, a.jobs[id].status, now)
  }

  ghost predicate Blocked(db: Db, cutoff: Time) {
    || (forall j :: j in db.jobs ==> !Eligible(db.jobs[j], cutoff))
    || (exists id :: IsHead(db, id, cutoff) && db.jobs[id].payload.fileId.None?)
  }

  lemma NothingClaimed(a: Db, b: Db, now: Time, timeout: Time)
    requires Dequeued(a, b, None, now, timeout)
    ensures b == a && Blocked(a, now - timeout)
  {
  }

  lemma ClaimedId(a: Db, b: Db, job: Option<Job>, now: Time, timeout: Time) returns (id: nat)
    requires Dequeued(a, b, job, now, timeout) && job.Some?
    ensures IsHead(a, id, now - timeout) && id in a.jobs && (b, job) == Claim(a, id, a.jobs[id].status, now)
  {
    id :| IsHead(a, id, now - timeout) && (b, job) == Claim(a, id, a.jobs[id].status, now);
  }

  class IngestService {
    /** Settings, clock readings and ingest results. */
    const env: Env

    // The tables, with their unique indexes and id sequences.
    var files: map<nat, FileRow>
    var docs: map<nat, DocRow>
    var jobs: map<nat, JobRow>
    var fileOf: map<Key, nat>
    var docOf: map<Key, nat>
    var nextFile: nat
    var nextDoc: nat
    var nextJob: nat

    // Clock readings taken, ingest calls made, seconds slept, and the log of attempts.
    var ticks: nat
    var calls: nat
    var slept: real
    var attempts: seq<(nat, nat)>

    constructor (env: Env)
      ensures this.env == env
      ensures World() == IngestWorld.World.World(EMPTY_DB, 0, 0, 0.0, [])
    {
      this.env := env;
      files, docs, jobs, fileOf, docOf := map[], map[], map[], map[], map[];
      nextFile, nextDoc, nextJob := 0, 0, 0;
      ticks, calls, slept, attempts := 0, 0, 0.0, [];
    }

    function Db(): IngestRows.Db
      reads this
    {
      IngestRows.Db.Db(files, docs, jobs, fileOf, docOf, nextFile, nextDoc, nextJob)
    }

    function World(): IngestWorld.World
      reads this
    {
      IngestWorld.World.World(Db(), ticks, calls, slept, attempts)
    }

    /** The next clock reading. */
    method Now() returns (now: Time)
      modifies this`ticks
      ensures now == env.clock(old(ticks)) && ticks == old(ticks) + 1
    {
      now := env.clock(ticks);
      ticks := ticks + 1;
    }

    method CreateJobRecord(fileId: nat, docId: Option<nat>, attempt: nat, now: Time) returns (id: nat)
      modifies this`jobs, this`nextJob
      ensures id == old(nextJob)
      ensures Db() == Enqueue(old(Db()), fileId, docId, attempt, now)
    {
      id := nextJob;
      jobs := jobs[id := NewJobRow(fileId, docId, attempt, now)];
      nextJob := nextJob + 1;
    }

    /** Find or create the document row of an upload. */
    method RegisterDocument(key: Key, mime: Option<string>) returns (d: nat)
      modifies this`docs, this`docOf, this`nextDoc
      ensures (Db(), d) == RegisterDoc(old(Db()), key, mime)
    {
      if key in docOf && docOf[key] in docs {
        d := docOf[key];
        var document := docs[d];
        if mime.Some? && document.mime != mime.value {
          document := document.(mime := mime.value);
        }
        if document.status == Failed {
          document := document.(status := Queued);
          document := document.(error := None);
        }
        document := document.(chunks := None);
        docs := docs[d := document];
      } else {
        d := nextDoc;
        docs := docs[d := DocRow(key, if mime.Some? then mime.value else DEFAULT_MIME, Queued, None, None)];
        docOf := docOf[key := d];
        nextDoc := nextDoc + 1;
      }
    }

    /** Find or create the file row, and decide whether it needs a job. */
    method RegisterFileRow(key: Key, upload: SourceFile, docId: nat, now: Time) returns (f: nat, queued: bool)
      modifies this`files, this`fileOf, this`nextFile
      ensures (Db(), f, queued) == RegisterFile(old(Db()), key, upload, docId, now) && f in files
    {
      queued := false;
      if key in fileOf && fileOf[key] in files {
        f := fileOf[key];
        var file := files[f];
        file := file.(updatedAt := now);
        file := file.(docId := Some(docId));
        if file.status == Failed {
          file := file.(upload := upload);
          file := file.(status := Queued);
          file := file.(retries := 0);
          file := file.(error := None);
          file := file.(chunks := None);
          queued := true;
        }
        files := files[f := file];
      } else {
        f := nextFile;
        files := files[f := FileRow(key, Some(docId), upload, Queued, 0, None, None, now)];
        fileOf := fileOf[key := f];
        nextFile := nextFile + 1;
        queued := true;
      }
    }

    /** Register an upload in database-queue mode: one transaction. */
    method RegisterUpload(key: Key, upload: SourceFile, mime: Option<string>) returns (f: nat, queued: bool)
      requires !env.autoProcess
      modifies this
      ensures Db() == Register(old(Db()), key, upload, mime, env.clock(old(ticks)))
      ensures ticks == old(ticks) + 1 && calls == old(calls) && slept == old(slept) && attempts == old(attempts)
      ensures f in files
      ensures queued <==> nextJob == old(nextJob) + 1
    {
      hide RegisterDoc, RegisterFile;
      var now := Now();
      var d := RegisterDocument(key, mime);
      f, queued := RegisterFileRow(key, upload, d, now);
      if queued {
        var _ := CreateJobRecord(f, Some(d), 0, now);
      }
    }

    /** Reserve the next eligible row.  Without one, or with an unusable head, nothing changes
        but the clock; otherwise the head of the queue order is claimed. */
    method DequeueNextJob() returns (job: Option<Job>)
      modifies this
      ensures ticks == old(ticks) + 1 && calls == old(calls) && slept == old(slept) && attempts == old(attempts)
      ensures Dequeued(old(Db()), Db(), job, env.clock(old(ticks)), env.timeout)
    {
      var now := Now();
      var staleBefore := now - env.timeout;
      if forall j :: j in jobs ==> !Eligible(jobs[j], staleBefore) {
        return None;
      }
      HeadExists(Db(), staleBefore);
      var id: nat :| id in jobs && IsHead(Db(), id, staleBefore);
      assert Db() == old(Db());
      job := Reserve(id, jobs[id].status, now);
    }

    /** The guarded UPDATE of a row selected in the observed status: it touches no row that has
        left that status since, and a row with an unusable payload is rolled back. */
    method Reserve(id: nat, observed: Status, now: Time) returns (job: Option<Job>)
      modifies this`jobs
      ensures (Db(), job) == Claim(old(Db()), id, observed, now)
    {
      if id !in jobs || jobs[id].status != observed {
        return None;
      }
      var snapshot := jobs;
      var row := jobs[id];
      row := row.(status := Processing);
      row := row.(startedAt := row.startedAt.Or(Some(now)));
      row := row.(updatedAt := now);
      if observed == Processing {
        row := row.(attempt := row.attempt + 1);
        row := row.(error := Some("RECOVERED_STUCK_JOB"));
        row := row.(payload := row.payload.(attempt := Some(row.attempt), recovered := true));
      }
      jobs := jobs[id := row];
      job := JobOf(row, id);
      if job.None? {
        jobs := snapshot;
      }
    }

    /** Fail stuck files with their documents and drop expired job rows. */
    method PerformMaintenance()
      modifies this
      ensures Db() == Maintain(old(Db()), env.clock(old(ticks)), env.retention, env.timeout)
      ensures ticks == old(ticks) + 1 && calls == old(calls) && slept == old(slept) && attempts == old(attempts)
    {
      var now := Now();
      jobs := map j | j in jobs && !Expired(jobs[j], now - env.retention) :: jobs[j];
      SweepStuckFiles(now, now - env.timeout);
      MaintainParts(old(Db()), Db(), now, env.retention, env.timeout);
    }

    method SweepStuckFiles(now: Time, cutoff: Time)
      modifies this`files, this`docs
      ensures files.Keys == old(files).Keys && docs.Keys == old(docs).Keys
      ensures forall f :: f in files ==>
        files[f] == if StuckFile(old(files)[f], cutoff)
                    then old(files)[f].(status := Failed, error := STALE, updatedAt := now) else old(files)[f]
      ensures forall d :: d in docs ==>
        docs[d] == if StuckDoc(old(Db()), d, cutoff)
                   then old(docs)[d].(status := Failed, error := STALE) else old(docs)[d]
    {
      ghost var before, docsBefore := files, docs;
      var stale := set f | f in files && StuckFile(files[f], cutoff);
      var left := stale;
      while left != {}
        invariant left <= stale
        invariant files.Keys == before.Keys && docs.Keys == docsBefore.Keys
        invariant forall f :: f in before ==>
          files[f] == if f in stale - left then before[f].(status := Failed, error := STALE, updatedAt := now) else before[f]
        invariant forall d :: d in docsBefore ==>
          docs[d] == if exists f :: f in stale - left && before[f].docId == Some(d)
                     then docsBefore[d].(status := Failed, error := STALE) else docsBefore[d]
        decreases |left|
      {
        var f :| f in left;
        var file := files[f];
        file := file.(status := Failed);
        file := file.(error := STALE);
        file := file.(updatedAt := now);
        files := files[f := file];
        docs := SetStatus(file.docId, Failed, STALE);
        left := left - {f};
      }
      StaleDocuments(old(Db()), stale, cutoff);
      hide StuckDoc;
    }

    /** The documents after one of them got a new status and error. */
    function SetStatus(id: Option<nat>, status: Status, error: Option<string>): (r: map<nat, DocRow>)
      reads this
      ensures r.Keys == docs.Keys
      ensures forall d :: d in docs ==>
        r[d] == if id == Some(d) then docs[d].(status := status, error := error) else docs[d]
    {
      if id.Some? && id.value in docs
      then docs[id.value := docs[id.value].(status := status, error := error)]
      else docs
    }
  }

  /** The three ways a failure can go. */
  lemma FailureGoes(env: Env, w: World, job: Job)
    ensures var attempt := job.attempt + 1;
      HandleFailure(env, w, job)
        == if attempt > env.maxRetries then w
           else if job.fileId !in w.db.files then w.(slept := w.slept + Delay(env, attempt))
           else EnqueueJob(env, w.(db := Requeue(w.db, job.fileId, attempt, env.clock(w.ticks)), ticks := w.ticks + 1,
                                   slept := w.slept + Delay(env, attempt)),
                           job.fileId, w.db.files[job.fileId].docId, attempt)
  {
    hide Requeue, Delay, Process, Enqueue;
  }

  class IngestWorker {
    const service: IngestService

    constructor (service: IngestService)
      ensures this.service == service
    {
      this.service := service;
    }

    method FailJobFileMissing(rowId: nat, now: Time)
      modifies service`jobs
      ensures service.Db() == FailMissing(old(service.Db()), rowId, now)
    {
      if rowId in service.jobs {
        var row := service.jobs[rowId];
        row := row.(status := Failed);
        row := row.(error := Some("FILE_MISSING"));
        row := row.(finishedAt := Some(now));
        row := row.(updatedAt := now);
        service.jobs := service.jobs[rowId := row];
      }
    }

    method BeginProcessing(job: Job) returns (proceed: bool)
      modifies service
      ensures (service.Db(), proceed) == Begin(old(service.Db()), job, service.env.clock(old(service.ticks)))
      ensures service.World() == old(service.World()).(db := service.Db(), ticks := old(service.ticks) + 1)
    {
      var now := service.Now();
      if job.fileId !in service.files {
        FailJobFileMissing(job.rowId, now);
        return false;
      }
      var file := service.files[job.fileId];
      var documentId := job.docId.Or(file.docId);
      if file.status == Completed {
        if job.rowId in service.jobs && service.jobs[job.rowId].status == Queued {
          var row := service.jobs[job.rowId];
          row := row.(status := Completed);
          row := row.(finishedAt := Some(now));
          row := row.(updatedAt := now);
          service.jobs := service.jobs[job.rowId := row];
        }
        return false;
      }
      file := file.(status := Processing);
      file := file.(error := None);
      file := file.(chunks := None);
      file := file.(updatedAt := now);
      service.files := service.files[job.fileId := file];
      WriteDocument(documentId, Processing, None, None);
      if job.rowId in service.jobs {
        var row := service.jobs[job.rowId];
        row := row.(status := Processing);
        row := row.(startedAt := Some(now));
        row := row.(updatedAt := now);
        service.jobs := service.jobs[job.rowId := row];
      }
      return true;
    }

    method WriteDocument(id: Option<nat>, status: Status, error: Option<string>, chunks: Option<nat>)
      modifies service`docs
      ensures service.docs == SetDoc(old(service.docs), id, status, error, chunks)
    {
      if id.Some? && id.value in service.docs {
        var document := service.docs[id.value];
        document := document.(status := status);
        document := document.(error := error);
        document := document.(chunks := chunks);
        service.docs := service.docs[id.value := document];
      }
    }

    method FinalizeJob(job: Job, outcome: Outcome)
      modifies service
      ensures service.Db() == Finalize(old(service.Db()), job, outcome, service.env.clock(old(service.ticks)))
      ensures service.World() == old(service.World()).(db := service.Db(), ticks := old(service.ticks) + 1)
    {
      hide SetDoc, FailMissing;
      var now := service.Now();
      if job.fileId !in service.files {
        FailJobFileMissing(job.rowId, now);
        return;
      }
      var success := outcome.Ok?;
      var status := if success then Completed else Failed;
      var chunks := if success then outcome.chunks else 0;
      var error := if success then None else Some(outcome.message);
      var file := service.files[job.fileId];
      var documentId := job.docId.Or(file.docId);
      file := file.(status := status);
      file := file.(updatedAt := now);
      file := file.(error := error);
      file := file.(chunks := Some(chunks));
      if !success {
        file := file.(retries := job.attempt + 1);
      }
      service.files := service.files[job.fileId := file];
      WriteDocument(documentId, status, error, Some(chunks));
      WriteJobRow(job, status, error, chunks, now);
    }

    method WriteJobRow(job: Job, status: Status, error: Option<string>, chunks: nat, now: Time)
      modifies service`jobs
      ensures service.jobs
        == if job.rowId in old(service.jobs) then
             var row := old(service.jobs)[job.rowId];
             old(service.jobs)[job.rowId := row.(status := status, finishedAt := Some(now), updatedAt := now,
               payload := row.payload.(chunks := Some(chunks), attempt := Some(job.attempt)), error := error)]
           else old(service.jobs)
    {
      if job.rowId in service.jobs {
        var row := service.jobs[job.rowId];
        row := row.(status := status);
        row := row.(finishedAt := Some(now));
        row := row.(updatedAt := now);
        row := row.(payload := row.payload.(chunks := Some(chunks), attempt := Some(job.attempt)));
        row := row.(error := error);
        service.jobs := service.jobs[job.rowId := row];
      }
    }

    /** Enqueue a retry; with immediate processing the worker runs it right away. */
    method EnqueueRetry(fileId: nat, docId: Option<nat>, attempt: nat)
      modifies service
      ensures service.World() == EnqueueJob(service.env, old(service.World()), fileId, docId, attempt)
      decreases Left(service.env, attempt), 2
    {
      var now := service.Now();
      var id := service.CreateJobRecord(fileId, docId, attempt, now);
      if service.env.autoProcess {
        ProcessJob(Job(id, fileId, docId, attempt));
      }
    }

    /** `_process`, which is also all that `process_job` does while the database answers. */
    method ProcessJob(job: Job)
      modifies service
      ensures service.World() == Process(service.env, old(service.World()), job)
      decreases Left(service.env, job.attempt), 1
    {
      hide Begin, Finalize, HandleFailure;
      var proceed := BeginProcessing(job);
      if !proceed { return; }
      var outcome := service.env.ingest(service.calls);
      service.calls := service.calls + 1;
      service.attempts := service.attempts + [(job.fileId, job.attempt)];
      FinalizeJob(job, outcome);
      if outcome.Error? {
        AfterFailure(job);
      }
    }

    method AfterFailure(job: Job)
      modifies service
      ensures service.World() == HandleFailure(service.env, old(service.World()), job)
      decreases Left(service.env, job.attempt), 0
    {
      FailureGoes(service.env, service.World(), job);
      hide HandleFailure, EnqueueJob, Requeue, Delay;
      var attempt := job.attempt + 1;
      if attempt > service.env.maxRetries { return; }
      var found := job.fileId in service.files;
      var docId: Option<nat> := None;
      if found {
        docId := RequeueFile(job.fileId, attempt);
      }
      Sleep(attempt);
      if found {
        EnqueueRetry(job.fileId, docId, attempt);
      }
    }

    /** The backoff before the next attempt. */
    method Sleep(attempt: nat)
      requires attempt > 0
      modifies service`slept
      ensures service.World() == old(service.World()).(slept := old(service.slept) + Delay(service.env, attempt))
    {
      service.slept := service.slept + Delay(service.env, attempt);
    }

    method RequeueFile(fileId: nat, attempt: nat) returns (docId: Option<nat>)
      requires fileId in service.files
      modifies service
      ensures docId == old(service.files)[fileId].docId
      ensures service.Db() == Requeue(old(service.Db()), fileId, attempt, service.env.clock(old(service.ticks)))
      ensures service.World() == old(service.World()).(db := service.Db(), ticks := old(service.ticks) + 1)
    {
      var now := service.Now();
      var file := service.files[fileId];
      docId := file.docId;
      file := file.(status := Queued);
      file := file.(retries := attempt);
      file := file.(updatedAt := now);
      service.files := service.files[fileId := file];
      WriteDocument(file.docId, Queued, None, None);
    }

    /** Run until nothing is eligible, or `limit` jobs were claimed.  With a limit it always
        ends; without one it ends when there is a bound on the rounds that can follow each
        other - as there is on orderly tables, and on any while no row turns stale.
        On exit without a limit, either no row is eligible or the head of the order has no
        usable payload - the row every later claim would meet and roll back again; when every
        payload was usable at the start, no row is eligible. */
    method Drain(limit: Option<nat>) returns (processed: nat, ghost ids: seq<nat>)
      requires limit.Some? || Ends(service.env, service.World())
      modifies service
      ensures |ids| == processed && (limit.Some? ==> processed <= limit.value)
      ensures Drained(service.env, old(service.World()), service.World(), ids)
      ensures limit.None? || processed < limit.value ==> RanDry(service.env, old(service.World()), service.World())
    {
      processed, ids := 0, [];
      ghost var w := service.World();
      ghost var most := MostRounds(service.env, w, limit);
      assert Underway(service.env, w, w, []);
      hide *;
      while true
        invariant |ids| == processed && Underway(service.env, w, service.World(), ids)
        invariant processed <= most
        decreases most - processed
      {
        if limit.Some? && processed >= limit.value { break; }
        ghost var before := service.World();
        var worked;
        ghost var id;
        worked, id := ClaimAndProcess();
        if !worked {
          Ended(service.env, w, before, service.World(), ids);
          return;
        }
        OneMoreRound(service.env, w, before, ids, id);
        processed, ids := processed + 1, ids + [id];
        if limit.None? { WithinBound(service.env, w, service.World(), ids, most); }
      }
      Cut(service.env, w, service.World(), ids);
    }

    /** One round: claim the head of the queue and process it, or find nothing to claim. */
    method ClaimAndProcess() returns (worked: bool, ghost id: nat)
      modifies service
      ensures worked ==> RoundOk(service.env, old(service.World()), id)
      ensures worked ==> service.World() == AfterRound(service.env, old(service.World()), id)
      ensures !worked ==> FoundNothing(service.env, old(service.World()), service.World())
    {
      hide Process, Claim, IsHead, Dequeued, Blocked;
      id := 0;
      ghost var w := service.World();
      ghost var now := service.env.clock(w.ticks);
      var job := service.DequeueNextJob();
      if job.None? {
        NothingClaimed(w.db, service.Db(), now, service.env.timeout);
        return false, id;
      }
      id := ClaimedId(w.db, service.Db(), job, now, service.env.timeout);
      ProcessJob(job.value);
      return true, id;
    }
  }

  /** How many rounds a drain can make at most. */
  lemma MostRounds(env: Env, w: World, limit: Option<nat>) returns (most: nat)
    requires limit.Some? || Ends(env, w)
    ensures limit.Some? ==> most == limit.value
    ensures limit.None? ==> NoMoreThan(env, w, most)
  {
    hide NoMoreThan;
    if limit.Some? {
      most := limit.value;
    } else {
      most :| NoMoreThan(env, w, most);
    }
  }

  lemma WithinBound(env: Env, w: World, now: World, ids: seq<nat>, most: nat)
    requires NoMoreThan(env, w, most) && Underway(env, w, now, ids)
    ensures |ids| <= most
  {
    hide RoundsOk, AfterRounds, RowIds, Usable;
    assert AtMost(ids, most);
  }

  /** The state of a drain between rounds. */
  ghost predicate Underway(env: Env, w: World, now: World, ids: seq<nat>) {
    && RoundsOk(env, w, ids) && now == AfterRounds(env, w, ids)
    && (RowIds(w.db) ==> RowIds(now.db)) && (Usable(w.db) ==> Usable(now.db))
  }

  lemma RoundUsable(env: Env, w: World, id: nat)
    requires RoundOk(env, w, id) && Usable(w.db)
    ensures Usable(AfterRound(env, w, id).db)
  {
    var now := env.clock(w.ticks);
    var (db1, job) := Claim(w.db, id, w.db.jobs[id].status, now);
    ClaimUsable(w.db, id, w.db.jobs[id].status, now);
    hide Claim, Process, IsHead, Usable;
    ProcessUsable(env, w.(db := db1, ticks := w.ticks + 1), job.value);
  }

  lemma OneMoreRound(env: Env, w: World, now: World, ids: seq<nat>, id: nat)
    requires Underway(env, w, now, ids) && RoundOk(env, now, id)
    ensures Underway(env, w, AfterRound(env, now, id), ids + [id])
  {
    hide Usable, RowIds, RoundOk, AfterRound, RoundsOk, AfterRounds;
    RoundsSnoc(env, w, ids, id);
    if RowIds(w.db) { RoundKeepsIds(env, now, id); }
    if Usable(w.db) { RoundUsable(env, now, id); }
  }

  /** One reading of the clock, and nothing to claim at it. */
  ghost predicate FoundNothing(env: Env, a: World, b: World) {
    b == a.(ticks := a.ticks + 1) && Blocked(a.db, env.clock(a.ticks) - env.timeout)
  }

  /** The rounds took `w` to `end`, but for a last reading of the clock; orderly tables stay so,
      and there were no more rounds than the measure at the start. */
  ghost predicate Drained(env: Env, w: World, end: World, ids: seq<nat>) {
    && (RowIds(w.db) ==> RowIds(end.db)) && RoundsOk(env, w, ids)
    && end == AfterRounds(env, w, ids).(ticks := end.ticks) && AfterRounds(env, w, ids).ticks <= end.ticks
    && (Orderly(w.db) ==> Orderly(end.db) && |ids| <= TotalWork(env, w.db, None))
  }

  /** At the last reading of the clock no row was eligible, or only behind an unusable head -
      which cannot be when every payload was usable at the start. */
  ghost predicate RanDry(env: Env, w: World, end: World) {
    && end.ticks > 0
    && var cutoff := env.clock(end.ticks - 1) - env.timeout;
       && Blocked(end.db, cutoff)
       && (Usable(w.db) ==> forall j :: j in end.db.jobs ==> !Eligible(end.db.jobs[j], cutoff))
  }

  lemma Cut(env: Env, w: World, now: World, ids: seq<nat>)
    requires Underway(env, w, now, ids)
    ensures Drained(env, w, now, ids)
  {
    hide Orderly, RowIds, Usable, TotalWork, RoundsOk, AfterRounds;
    if Orderly(w.db) { RoundsBounded(env, w, ids); }
  }

  lemma Ended(env: Env, w: World, now: World, end: World, ids: seq<nat>)
    requires Underway(env, w, now, ids) && FoundNothing(env, now, end)
    ensures Drained(env, w, end, ids) && RanDry(env, w, end)
  {
    Cut(env, w, now, ids);
    hide Orderly, RowIds, TotalWork, RoundsOk, AfterRounds, Blocked, Eligible, Usable;
    if Usable(w.db) { UsableBlocked(end.db, env.clock(now.ticks) - env.timeout); }
  }

  lemma UsableBlocked(db: Db, cutoff: Time)
    requires Usable(db) && Blocked(db, cutoff)
    ensures forall j :: j in db.jobs ==> !Eligible(db.jobs[j], cutoff)
  {
    hide Eligible;
  }
}
