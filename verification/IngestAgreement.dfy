/** File status equals document status in every committed state, whatever the
    interleaving: the two-step claim, expired leases, crashes and re-uploads included. */
module IngestAgreement {
  import opened Options
  import opened IngestRows
  import opened IngestProtocol

  ghost predicate DocsIndexed(db: Db) {
    && (forall d :: d in db.docs ==>
          d < db.nextDoc && db.docs[d].key in db.docOf && db.docOf[db.docs[d].key] == d)
    && (forall k :: k in db.docOf ==> db.docOf[k] in db.docs && db.docs[db.docOf[k]].key == k
                                      && k in db.fileOf)
  }

  ghost predicate FilesIndexed(db: Db) {
    && (forall f :: f in db.files ==>
          f < db.nextFile && db.files[f].key in db.fileOf && db.fileOf[db.files[f].key] == f)
    && (forall k :: k in db.fileOf ==> db.fileOf[k] in db.files && db.files[db.fileOf[k]].key == k)
  }

  predicate StatusAgrees(db: Db, f: nat)
    requires f in db.files
  {
    && db.files[f].docId.Some? && db.files[f].docId.value in db.docs
    && db.docs[db.files[f].docId.value].key == db.files[f].key
    && db.docs[db.files[f].docId.value].status == db.files[f].status
  }

  /** Every file owns the document of its own key, and the two statuses are equal. */
  ghost predicate StatusesAgree(db: Db) {
    forall f :: f in db.files ==> StatusAgrees(db, f)
  }

  predicate Refers(db: Db, fileId: nat, docId: Option<nat>) {
    fileId in db.files && docId == db.files[fileId].docId
  }

  ghost predicate JobsRefer(db: Db) {
    forall j :: j in db.jobs ==>
      j < db.nextJob && db.jobs[j].payload.fileId.Some?
      && Refers(db, db.jobs[j].payload.fileId.value, db.jobs[j].payload.docId)
  }

  predicate WorkerRefers(db: Db, worker: Worker) {
    match worker
    case Idle => true
    case Selected(_, _, _) => true
    case Claimed(job, _) => Refers(db, job.fileId, job.docId)
    case Ingesting(job, _) => Refers(db, job.fileId, job.docId)
    case Failing(job) => Refers(db, job.fileId, job.docId)
    case Backoff(fileId, docId, _) => Refers(db, fileId, docId)
  }

  ghost predicate WorkersRefer(s: State) {
    forall w :: w in s.workers ==> WorkerRefers(s.db, s.workers[w])
  }

  ghost predicate Tables(db: Db) {
    DocsIndexed(db) && FilesIndexed(db) && StatusesAgree(db) && JobsRefer(db)
  }

  ghost predicate Agree(s: State) {
    Tables(s.db) && WorkersRefer(s)
  }

  /** No file is lost and none changes its document: what references survive on. */
  ghost predicate FilesKept(a: Db, b: Db) {
    forall f :: f in a.files ==> f in b.files && b.files[f].docId == a.files[f].docId
  }

  lemma WorkersStillRefer(s: State, t: State)
    requires WorkersRefer(s) && FilesKept(s.db, t.db)
    requires forall w :: w in t.workers ==>
      (w in s.workers && t.workers[w] == s.workers[w]) || WorkerRefers(t.db, t.workers[w])
    ensures WorkersRefer(t)
  {
  }

  // ------------------------------------------------- one lemma per kind of commit

  /** What the document half of an upload leaves for the file half. */
  ghost predicate DocReady(db: Db, db1: Db, key: Key, d: nat) {
    && db1 == db.(docs := db1.docs, docOf := db.docOf[key := d], nextDoc := db1.nextDoc)
    && db.nextDoc <= db1.nextDoc && d < db1.nextDoc
    && d in db1.docs && db1.docs[d].key == key
    && (forall other :: other in db1.docs && other != d ==> other in db.docs && db1.docs[other] == db.docs[other])
    && (forall other :: other in db.docs ==> other in db1.docs)
    && (if key in db.fileOf then
          && d in db.docs && db.docs[d].key == key && key in db.docOf && db.docOf[key] == d
          && db1.docs[d].status == (if db.docs[d].status == Failed then Queued else db.docs[d].status)
        else d !in db.docs && key !in db.docOf && db1.docs[d].status == Queued)
  }

  /** A file's own document is the one of its key. */
  lemma OwnDocument(db: Db, key: Key)
    requires FilesIndexed(db) && StatusesAgree(db) && DocsIndexed(db) && key in db.fileOf
    ensures var f := db.fileOf[key];
      && f in db.files && db.files[f].key == key && key in db.docOf && db.files[f].docId == Some(db.docOf[key])
      && db.docOf[key] in db.docs && db.docs[db.docOf[key]].key == key
      && db.docs[db.docOf[key]].status == db.files[f].status
  {
    assert StatusAgrees(db, db.fileOf[key]);
  }

  lemma NextIdsFree(db: Db, key: Key)
    requires FilesIndexed(db) && DocsIndexed(db)
    ensures db.nextDoc !in db.docs && db.nextFile !in db.files && (key in db.docOf ==> key in db.fileOf)
  {
  }

  lemma DocReadyFrom(db: Db, key: Key, mime: Option<string>)
    requires (key in db.docOf <==> key in db.fileOf) && db.nextDoc !in db.docs
    requires forall d :: d in db.docs ==> d < db.nextDoc
    requires key in db.docOf ==> db.docOf[key] in db.docs && db.docs[db.docOf[key]].key == key
    ensures var (db1, d) := RegisterDoc(db, key, mime); DocReady(db, db1, key, d)
  {
    var (db1, d) := RegisterDoc(db, key, mime);
    assert db1.docOf == db.docOf[key := d];
  }

  lemma RegisterDocReady(db: Db, key: Key, mime: Option<string>)
    requires DocsIndexed(db) && FilesIndexed(db) && StatusesAgree(db)
    ensures var (db1, d) := RegisterDoc(db, key, mime); DocReady(db, db1, key, d)
  {
    assert forall d :: d in db.docs ==> d < db.nextDoc;
    hide *;
    NextIdsFree(db, key);
    if key in db.fileOf { OwnDocument(db, key); }
    DocReadyFrom(db, key, mime);
  }

  lemma DocReadyMeans(db: Db, db1: Db, key: Key, d: nat)
    requires DocReady(db, db1, key, d)
    ensures db1.files == db.files && db1.fileOf == db.fileOf && db1.nextFile == db.nextFile
    ensures key in db.fileOf ==> key in db.docOf && db.docOf[key] == d
    ensures d in db1.docs && db1.docs[d].key == key
    ensures db1.docs[d].status == if key in db.fileOf && db.docs[d].status != Failed then db.docs[d].status else Queued
  {
  }

  lemma RegisterFilesIndexed(db: Db, db1: Db, key: Key, upload: SourceFile, d: nat, now: Time)
    requires FilesIndexed(db) && DocReady(db, db1, key, d)
    ensures var (db2, f, _) := RegisterFile(db1, key, upload, d, now);
      FilesIndexed(db2) && db2.fileOf == db.fileOf[key := f]
  {
  }

  lemma RegisterDocsIndexed(db: Db, db1: Db, key: Key, d: nat, db2: Db, f: nat)
    requires DocsIndexed(db) && DocReady(db, db1, key, d)
    requires db2.docs == db1.docs && db2.docOf == db1.docOf && db2.nextDoc == db1.nextDoc
    requires db2.fileOf == db.fileOf[key := f]
    ensures DocsIndexed(db2)
  {
    forall e | e in db2.docs
      ensures e < db2.nextDoc && db2.docs[e].key in db2.docOf && db2.docOf[db2.docs[e].key] == e
    {
      if e != d { assert db.docs[e].key != key; }
    }
    forall k | k in db2.docOf
      ensures db2.docOf[k] in db2.docs && db2.docs[db2.docOf[k]].key == k && k in db2.fileOf
    {
      if k != key { assert db.docOf[k] != d; }
    }
    hide DocReady;
  }

  /** What registering the file leaves alone. */
  lemma RegisterFileFrame(db: Db, key: Key, upload: SourceFile, d: nat, now: Time)
    ensures var (db2, f, _) := RegisterFile(db, key, upload, d, now);
      && db2.docs == db.docs && db2.docOf == db.docOf && db2.nextDoc == db.nextDoc
      && db2.jobs == db.jobs && db2.nextJob == db.nextJob && Refers(db2, f, Some(d))
      && forall g :: g != f ==> (g in db2.files <==> g in db.files) && (g in db.files ==> db2.files[g] == db.files[g])
  {
  }

  lemma FileKeptFrom(db: Db, db1: Db, key: Key, upload: SourceFile, d: nat, now: Time)
    requires db1.files == db.files && db1.fileOf == db.fileOf && db1.nextFile == db.nextFile
    requires key in db.fileOf ==> db.fileOf[key] in db.files && db.files[db.fileOf[key]].docId == Some(d)
    requires db.nextFile !in db.files
    ensures FilesKept(db, RegisterFile(db1, key, upload, d, now).0)
  {
  }

  lemma RegisterFileKept(db: Db, db1: Db, key: Key, upload: SourceFile, d: nat, now: Time)
    requires FilesIndexed(db) && StatusesAgree(db) && DocsIndexed(db) && DocReady(db, db1, key, d)
    ensures var (db2, f, _) := RegisterFile(db1, key, upload, d, now); FilesKept(db, db2)
  {
    hide *;
    DocReadyMeans(db, db1, key, d);
    NextIdsFree(db, key);
    if key in db.fileOf { OwnDocument(db, key); }
    FileKeptFrom(db, db1, key, upload, d, now);
  }

  /** The registered file agrees with the registered document. */
  lemma RegisteredStatus(db: Db, key: Key, upload: SourceFile, d: nat, now: Time)
    requires d in db.docs && db.docs[d].key == key
    requires key in db.fileOf ==> db.fileOf[key] in db.files && db.files[db.fileOf[key]].key == key
    requires db.docs[d].status
      == if key in db.fileOf && db.files[db.fileOf[key]].status != Failed then db.files[db.fileOf[key]].status else Queued
    ensures var (db2, f, _) := RegisterFile(db, key, upload, d, now); f in db2.files && StatusAgrees(db2, f)
  {
  }

  lemma OtherStatus(db: Db, db1: Db, db2: Db, key: Key, d: nat, g: nat)
    requires DocReady(db, db1, key, d) && StatusesAgree(db) && FilesIndexed(db)
    requires g in db.files && db.files[g].key != key && g in db2.files && db2.files[g] == db.files[g]
    requires db2.docs == db1.docs
    requires key in db.docOf ==> db.docOf[key] in db.docs && db.docs[db.docOf[key]].key == key
    ensures StatusAgrees(db2, g)
  {
    assert StatusAgrees(db, g);
    hide FilesIndexed, StatusesAgree;
  }

  lemma FileOfOther(db: Db, key: Key, g: nat)
    requires FilesIndexed(db) && g in db.files && (key in db.fileOf ==> g != db.fileOf[key])
    ensures db.files[g].key != key
  {
  }

  lemma RegisterStatuses(db: Db, db1: Db, key: Key, upload: SourceFile, d: nat, now: Time)
    requires FilesIndexed(db) && StatusesAgree(db) && DocReady(db, db1, key, d)
    requires DocsIndexed(db)
    ensures StatusesAgree(RegisterFile(db1, key, upload, d, now).0)
  {
    var (db2, f, _) := RegisterFile(db1, key, upload, d, now);
    RegisterFileFrame(db1, key, upload, d, now);
    assert key in db1.fileOf && db1.fileOf[key] in db1.files ==> f == db1.fileOf[key];
    hide DocReady, RegisterFile, FilesIndexed, DocsIndexed, StatusAgrees, Refers;
    DocReadyMeans(db, db1, key, d);
    NextIdsFree(db, key);
    if key in db.fileOf { OwnDocument(db, key); }
    RegisteredStatus(db1, key, upload, d, now);
    forall g | g in db2.files ensures StatusAgrees(db2, g) {
      if g != f {
        FileOfOther(db, key, g);
        OtherStatus(db, db1, db2, key, d, g);
      }
    }
  }

  lemma EnqueueKeeps(db: Db, fileId: nat, docId: Option<nat>, attempt: nat, now: Time)
    requires Tables(db) && Refers(db, fileId, docId)
    ensures var db' := Enqueue(db, fileId, docId, attempt, now); Tables(db') && FilesKept(db, db')
  {
  }

  lemma JobsReferStill(a: Db, b: Db)
    requires JobsRefer(a) && FilesKept(a, b) && b.jobs == a.jobs && b.nextJob == a.nextJob
    ensures JobsRefer(b)
  {
  }

  lemma KeptSteps(a: Db, b: Db, c: Db)
    requires FilesKept(a, b) && FilesKept(b, c)
    ensures FilesKept(a, c)
  {
  }

  lemma RegisterKeeps(db: Db, key: Key, upload: SourceFile, mime: Option<string>, now: Time)
    requires Tables(db)
    ensures var db' := Register(db, key, upload, mime, now); Tables(db') && FilesKept(db, db')
  {
    hide RegisterDoc, RegisterFile, Enqueue, DocsIndexed, FilesIndexed, StatusesAgree, JobsRefer, FilesKept, Refers;
    var (db1, d) := RegisterDoc(db, key, mime);
    RegisterDocReady(db, key, mime);
    RegisterFilesIndexed(db, db1, key, upload, d, now);
    RegisterFileKept(db, db1, key, upload, d, now);
    RegisterStatuses(db, db1, key, upload, d, now);
    RegisterFileFrame(db1, key, upload, d, now);
    var (db2, f, queued) := RegisterFile(db1, key, upload, d, now);
    RegisterDocsIndexed(db, db1, key, d, db2, f);
    hide DocReady;
    DocKeepsJobs(db, key, mime);
    JobsReferStill(db, db2);
    if queued {
      EnqueueKeeps(db2, f, Some(d), 0, now);
      KeptSteps(db, db2, Enqueue(db2, f, Some(d), 0, now));
    }
  }

  lemma DocKeepsJobs(db: Db, key: Key, mime: Option<string>)
    ensures var db1 := RegisterDoc(db, key, mime).0; db1.jobs == db.jobs && db1.nextJob == db.nextJob
  {
  }

  /** One file and its document, rewritten together. */
  function SetStatus(db: Db, fileId: nat, file: FileRow, docId: Option<nat>, error: Option<string>,
                     chunks: Option<nat>, jobs: map<nat, JobRow>): Db
  {
    db.(files := db.files[fileId := file], jobs := jobs,
        docs := SetDoc(db.docs, docId, file.status, error, chunks))
  }

  lemma SetStatusAgrees(db: Db, fileId: nat, file: FileRow, docId: Option<nat>, error: Option<string>,
                        chunks: Option<nat>, jobs: map<nat, JobRow>)
    requires FilesIndexed(db) && StatusesAgree(db) && Refers(db, fileId, docId)
    requires file.key == db.files[fileId].key && file.docId == db.files[fileId].docId
    ensures StatusesAgree(SetStatus(db, fileId, file, docId, error, chunks, jobs))
  {
    var db' := SetStatus(db, fileId, file, docId, error, chunks, jobs);
    forall f | f in db'.files ensures StatusAgrees(db', f) {
      assert StatusAgrees(db, f);
      if f != fileId { assert db.files[f].key != file.key; }
    }
  }

  lemma SetStatusIndexes(db: Db, fileId: nat, file: FileRow, docId: Option<nat>, error: Option<string>,
                         chunks: Option<nat>, jobs: map<nat, JobRow>)
    requires DocsIndexed(db) && FilesIndexed(db) && Refers(db, fileId, docId)
    requires file.key == db.files[fileId].key && file.docId == db.files[fileId].docId
    ensures var db' := SetStatus(db, fileId, file, docId, error, chunks, jobs);
      DocsIndexed(db') && FilesIndexed(db') && FilesKept(db, db')
  {
  }

  lemma SetStatusKeeps(db: Db, fileId: nat, file: FileRow, docId: Option<nat>, error: Option<string>,
                       chunks: Option<nat>, jobs: map<nat, JobRow>)
    requires Tables(db) && Refers(db, fileId, docId)
    requires file.key == db.files[fileId].key && file.docId == db.files[fileId].docId
    requires JobsRefer(db.(jobs := jobs))
    ensures var db' := SetStatus(db, fileId, file, docId, error, chunks, jobs); Tables(db') && FilesKept(db, db')
  {
    SetStatusAgrees(db, fileId, file, docId, error, chunks, jobs);
    SetStatusIndexes(db, fileId, file, docId, error, chunks, jobs);
    hide StatusesAgree, DocsIndexed, FilesIndexed;
  }

  lemma BeginKeeps(db: Db, job: Job, now: Time)
    requires Tables(db)
    requires Refers(db, job.fileId, job.docId)
    ensures var db' := Begin(db, job, now).0;
      Tables(db') && FilesKept(db, db')
  {
    var file := db.files[job.fileId];
    var db' := Begin(db, job, now).0;
    if file.status != Completed {
      SetStatusKeeps(db, job.fileId, db'.files[job.fileId], job.docId.Or(file.docId), None, None, db'.jobs);
    }
  }

  lemma FinalizeKeeps(db: Db, job: Job, outcome: Outcome, now: Time)
    requires Tables(db)
    requires Refers(db, job.fileId, job.docId)
    ensures var db' := Finalize(db, job, outcome, now);
      Tables(db') && FilesKept(db, db')
  {
    var db' := Finalize(db, job, outcome, now);
    var file := db'.files[job.fileId];
    SetStatusKeeps(db, job.fileId, file, job.docId.Or(db.files[job.fileId].docId), file.error, file.chunks, db'.jobs);
  }

  lemma RequeueKeeps(db: Db, fileId: nat, attempt: nat, now: Time)
    requires Tables(db) && fileId in db.files
    ensures var db' := Requeue(db, fileId, attempt, now);
      Tables(db') && FilesKept(db, db')
  {
    var db' := Requeue(db, fileId, attempt, now);
    SetStatusKeeps(db, fileId, db'.files[fileId], db.files[fileId].docId, None, None, db.jobs);
  }

  /** A document is swept exactly when its own file is. */
  lemma SweptTogether(db: Db, cutoff: Time, f: nat)
    requires StatusesAgree(db) && FilesIndexed(db) && f in db.files
    ensures StuckDoc(db, db.files[f].docId.value, cutoff) <==> StuckFile(db.files[f], cutoff)
  {
    var d := db.files[f].docId;
    if StuckDoc(db, d.value, cutoff) {
      var g :| g in db.files && StuckFile(db.files[g], cutoff) && db.files[g].docId == d;
      assert StatusAgrees(db, g) && StatusAgrees(db, f);
      assert db.files[g].key == db.files[f].key;
    }
  }

  lemma MaintainStatuses(db: Db, now: Time, retention: Time, timeout: Time)
    requires StatusesAgree(db) && FilesIndexed(db)
    ensures StatusesAgree(Maintain(db, now, retention, timeout))
  {
    forall f | f in db.files
      ensures StuckDoc(db, db.files[f].docId.value, now - timeout) <==> StuckFile(db.files[f], now - timeout)
    {
      SweptTogether(db, now - timeout, f);
    }
  }

  lemma MaintainIndexes(db: Db, now: Time, retention: Time, timeout: Time)
    requires DocsIndexed(db) && FilesIndexed(db)
    ensures var db' := Maintain(db, now, retention, timeout);
      DocsIndexed(db') && FilesIndexed(db') && FilesKept(db, db')
  {
  }

  lemma MaintainJobs(db: Db, now: Time, retention: Time, timeout: Time)
    requires JobsRefer(db)
    ensures JobsRefer(Maintain(db, now, retention, timeout))
  {
  }

  lemma MaintainKeeps(db: Db, now: Time, retention: Time, timeout: Time)
    requires Tables(db)
    ensures var db' := Maintain(db, now, retention, timeout); Tables(db') && FilesKept(db, db')
  {
    hide Maintain, DocsIndexed, FilesIndexed, StatusesAgree, JobsRefer, FilesKept;
    MaintainStatuses(db, now, retention, timeout);
    MaintainIndexes(db, now, retention, timeout);
    MaintainJobs(db, now, retention, timeout);
  }

  lemma ClaimedJobsRefer(db: Db, id: nat, observed: Status, now: Time)
    requires JobsRefer(db)
    ensures var (db', job) := Claim(db, id, observed, now);
      && db' == db.(jobs := db'.jobs) && JobsRefer(db')
      && (job.Some? ==> Refers(db', job.value.fileId, job.value.docId))
  {
  }

  lemma OnlyJobsChange(db: Db, db': Db)
    requires Tables(db) && JobsRefer(db') && db' == db.(jobs := db'.jobs)
    ensures Tables(db') && FilesKept(db, db')
  {
    assert DocsIndexed(db') by { hide FilesIndexed, StatusesAgree, JobsRefer; }
    assert FilesIndexed(db') && FilesKept(db, db') by { hide DocsIndexed, StatusesAgree, JobsRefer; }
    assert StatusesAgree(db') by { hide DocsIndexed, FilesIndexed, JobsRefer; }
    hide DocsIndexed, FilesIndexed, StatusesAgree, JobsRefer;
  }

  lemma ClaimKeeps(db: Db, id: nat, observed: Status, now: Time)
    requires Tables(db)
    ensures var (db', job) := Claim(db, id, observed, now);
      && Tables(db') && FilesKept(db, db')
      && (job.Some? ==> Refers(db', job.value.fileId, job.value.docId))
  {
    assert JobsRefer(db);
    hide *;
    ClaimedJobsRefer(db, id, observed, now);
    OnlyJobsChange(db, Claim(db, id, observed, now).0);
  }

  lemma KeptReflexive(db: Db)
    ensures FilesKept(db, db)
  {
  }

  lemma StepTables(cfg: Config, s: State, step: Step)
    requires Agree(s) && Enabled(cfg, s, step)
    ensures var t := Apply(cfg, s, step); Tables(t.db) && FilesKept(s.db, t.db)
  {
    hide Tables, FilesKept, Claim, Begin, Finalize, Register, Requeue, Maintain, Enqueue;
    KeptReflexive(s.db);
    match step {
      case Upload(key, upload, mime) => RegisterKeeps(s.db, key, upload, mime, s.now);
      case Dequeue(w, id) => ClaimKeeps(s.db, id, s.db.jobs[id].status, s.now);
      case Update(w) => ClaimKeeps(s.db, s.Of(w).rowId, s.Of(w).observed, s.Of(w).at);
      case Start(w) => BeginKeeps(s.db, s.Of(w).job, s.now);
      case Finish(w, outcome) => FinalizeKeeps(s.db, s.Of(w).job, outcome, s.now);
      case Retry(w) =>
        var job := s.Of(w).job;
        if job.attempt + 1 <= cfg.maxRetries {
          RequeueKeeps(s.db, job.fileId, job.attempt + 1, s.now);
        }
      case Reenqueue(w) => EnqueueKeeps(s.db, s.Of(w).fileId, s.Of(w).docId, s.Of(w).attempt, s.now);
      case ReenqueueAndProcess(w) => EnqueueKeeps(s.db, s.Of(w).fileId, s.Of(w).docId, s.Of(w).attempt, s.now);
      case Maintenance => MaintainKeeps(s.db, s.now, cfg.retention, cfg.timeout);
      case _ =>
    }
  }

  lemma StepWorker(cfg: Config, s: State, step: Step, w: nat)
    requires Agree(s) && Enabled(cfg, s, step)
    requires var t := Apply(cfg, s, step); FilesKept(s.db, t.db) && w in t.workers
    ensures var t := Apply(cfg, s, step);
      (w in s.workers && t.workers[w] == s.workers[w]) || WorkerRefers(t.db, t.workers[w])
  {
    hide Tables, FilesKept, Claim, Begin, Finalize, Register, Requeue, Maintain, Enqueue, Refers;
    match step {
      case Dequeue(_, id) => ClaimKeeps(s.db, id, s.db.jobs[id].status, s.now);
      case Update(v) => ClaimKeeps(s.db, s.Of(v).rowId, s.Of(v).observed, s.Of(v).at);
      case _ =>
    }
    ReferStill(s.db, Apply(cfg, s, step).db);
  }

  lemma ReferStill(a: Db, b: Db)
    requires FilesKept(a, b)
    ensures forall f, d :: Refers(a, f, d) ==> Refers(b, f, d)
    ensures forall f :: f in a.files ==> Refers(b, f, a.files[f].docId)
  {
  }

  lemma StepKeeps(cfg: Config, s: State, step: Step)
    requires Agree(s) && Enabled(cfg, s, step)
    ensures Agree(Apply(cfg, s, step))
  {
    hide Tables, FilesKept, Apply, Enabled, WorkerRefers;
    StepTables(cfg, s, step);
    var t := Apply(cfg, s, step);
    forall w | w in t.workers
      ensures (w in s.workers && t.workers[w] == s.workers[w]) || WorkerRefers(t.db, t.workers[w])
    {
      StepWorker(cfg, s, step, w);
    }
    WorkersStillRefer(s, t);
  }

  /** Over every run of every length, in its last state and so in every state it passes. */
  lemma {:induction false} StatusAgreement(cfg: Config, s: State, steps: seq<Step>)
    requires Agree(s) && Run(cfg, s, steps)
    ensures Agree(Exec(cfg, s, steps))
    decreases |steps|
  {
    if steps != [] {
      StepKeeps(cfg, s, steps[0]);
      StatusAgreement(cfg, Apply(cfg, s, steps[0]), steps[1..]);
    }
  }

  lemma FileAndDocumentAgree(cfg: Config, start: Time, steps: seq<Step>, f: nat)
    requires Run(cfg, StartState(start), steps)
    requires f in Exec(cfg, StartState(start), steps).db.files
    ensures var db := Exec(cfg, StartState(start), steps).db;
      && db.files[f].docId.Some? && db.files[f].docId.value in db.docs
      && db.docs[db.files[f].docId.value].key == db.files[f].key
      && db.docs[db.files[f].docId.value].status == db.files[f].status
  {
    StatusAgreement(cfg, StartState(start), steps);
    assert StatusAgrees(Exec(cfg, StartState(start), steps).db, f);
  }
}
