/** Which rows maintenance may touch: files nobody has written for a timeout, and jobs
    finished longer ago than they are kept. */
module IngestMaintenance {
  import opened Options
  import opened IngestRows
  import opened IngestProtocol
  import opened IngestLease
  import IngestAgreement

  // ------------------------------------------------------------------ on the tables

  /** The file failed as stale, and its document with it. */
  predicate FailedStale(a: Db, b: Db, f: nat, now: Time)
    requires f in a.files
  {
    && f in b.files && b.files[f].status == Failed && b.files[f].error == Some("STALE_PROCESSING")
    && b.files[f] == a.files[f].(status := b.files[f].status, error := b.files[f].error, updatedAt := now)
    && a.files[f].docId.Some? && a.files[f].docId.value in b.docs
    && b.docs[a.files[f].docId.value].status == Failed && b.docs[a.files[f].docId.value].error == Some("STALE_PROCESSING")
  }

  /** The file is as it was, and its document too. */
  predicate FileKept(a: Db, b: Db, f: nat)
    requires f in a.files
  {
    && f in b.files && b.files[f] == a.files[f]
    && a.files[f].docId.Some? && a.files[f].docId.value in a.docs && a.files[f].docId.value in b.docs
    && b.docs[a.files[f].docId.value] == a.docs[a.files[f].docId.value]
  }

  /** A PROCESSING file unwritten for longer than the timeout fails with its document; every
      other file stays as it is, with its document. */
  lemma MaintainedFile(db: Db, now: Time, retention: Time, timeout: Time, f: nat)
    requires IngestAgreement.StatusesAgree(db) && IngestAgreement.FilesIndexed(db) && f in db.files
    ensures var end := Maintain(db, now, retention, timeout);
      if db.files[f].status == Processing && now - db.files[f].updatedAt > timeout then FailedStale(db, end, f, now)
      else FileKept(db, end, f)
  {
    assert IngestAgreement.StatusAgrees(db, f);
    IngestAgreement.SweptTogether(db, now - timeout, f);
    hide IngestAgreement.StatusesAgree, IngestAgreement.FilesIndexed, StuckDoc;
  }

  /** A job finished longer ago than the retention is removed; every other stays as it is. */
  lemma MaintainedJob(db: Db, now: Time, retention: Time, timeout: Time, j: nat)
    requires j in db.jobs
    ensures var end := Maintain(db, now, retention, timeout);
      if db.jobs[j].finishedAt.Some? && now - db.jobs[j].finishedAt.value > retention then j !in end.jobs
      else j in end.jobs && end.jobs[j] == db.jobs[j]
  {
  }

  // ---------------------------------------------------------------- over whole runs

  /** A worker's file was written no earlier than the worker took it into ingestion. */
  predicate FileWritten(s: State, w: nat) {
    s.Of(w).Ingesting? ==>
      && s.Of(w).lease <= s.now && s.Of(w).job.fileId in s.db.files
      && s.Of(w).lease <= s.db.files[s.Of(w).job.fileId].updatedAt
  }

  ghost predicate FilesWritten(s: State) {
    forall w :: FileWritten(s, w)
  }

  /** Every commit leaves a file as it is or writes it now. */
  ghost predicate WrittenNow(a: Db, b: Db, now: Time) {
    forall f :: f in a.files ==> f in b.files && (b.files[f] == a.files[f] || b.files[f].updatedAt == now)
  }

  lemma RegisterFileWrites(db: Db, key: Key, upload: SourceFile, d: nat, now: Time)
    requires db.nextFile !in db.files
    ensures WrittenNow(db, RegisterFile(db, key, upload, d, now).0, now)
  {
  }

  lemma RegisterWritesFiles(db: Db, key: Key, upload: SourceFile, mime: Option<string>, now: Time)
    requires db.nextFile !in db.files
    ensures WrittenNow(db, Register(db, key, upload, mime, now), now)
  {
    var (db1, d) := RegisterDoc(db, key, mime);
    assert db1.files == db.files && db1.nextFile == db.nextFile;
    hide RegisterDoc;
    RegisterFileWrites(db1, key, upload, d, now);
    hide RegisterFile;
  }

  lemma BeginWritesFile(db: Db, job: Job, now: Time)
    ensures WrittenNow(db, Begin(db, job, now).0, now)
  {
    hide SetDoc;
  }

  lemma FinalizeWritesFile(db: Db, job: Job, outcome: Outcome, now: Time)
    ensures WrittenNow(db, Finalize(db, job, outcome, now), now)
  {
    hide SetDoc;
  }

  lemma RetryWritesFile(db: Db, f: nat, attempt: nat, docId: Option<nat>, now: Time)
    ensures WrittenNow(db, Requeue(db, f, attempt, now), now)
    ensures WrittenNow(db, Enqueue(db, f, docId, attempt, now), now)
  {
    hide SetDoc;
  }

  lemma ClaimWritesNoFile(db: Db, id: nat, observed: Status, at: Time)
    ensures Claim(db, id, observed, at).0.files == db.files
  {
  }

  lemma MaintainWritesFiles(db: Db, now: Time, retention: Time, timeout: Time)
    ensures WrittenNow(db, Maintain(db, now, retention, timeout), now)
  {
  }

  lemma SameWritten(db: Db, b: Db, now: Time)
    requires b.files == db.files
    ensures WrittenNow(db, b, now)
  {
  }

  lemma StepWritesFiles(cfg: Config, s: State, step: Step)
    requires Enabled(cfg, s, step) && s.db.nextFile !in s.db.files
    ensures WrittenNow(s.db, Apply(cfg, s, step).db, s.now)
  {
    assert step.Dequeue? ==> step.id in s.db.jobs;
    hide Register, Maintain, IsHead, Claim, Begin, Finalize, Requeue, Enqueue, WrittenNow;
    SameWritten(s.db, s.db, s.now);
    match step {
      case Upload(key, upload, mime) => RegisterWritesFiles(s.db, key, upload, mime, s.now);
      case Dequeue(_, id) =>
        ClaimWritesNoFile(s.db, id, s.db.jobs[id].status, s.now);
        SameWritten(s.db, Apply(cfg, s, step).db, s.now);
      case Update(w) =>
        ClaimWritesNoFile(s.db, s.Of(w).rowId, s.Of(w).observed, s.Of(w).at);
        SameWritten(s.db, Apply(cfg, s, step).db, s.now);
      case Start(w) => BeginWritesFile(s.db, s.Of(w).job, s.now);
      case Finish(w, outcome) => FinalizeWritesFile(s.db, s.Of(w).job, outcome, s.now);
      case Retry(w) => RetryWritesFile(s.db, s.Of(w).job.fileId, s.Of(w).job.attempt + 1, None, s.now);
      case Reenqueue(w) => RetryWritesFile(s.db, s.Of(w).fileId, s.Of(w).attempt, s.Of(w).docId, s.now);
      case ReenqueueAndProcess(w) => RetryWritesFile(s.db, s.Of(w).fileId, s.Of(w).attempt, s.Of(w).docId, s.now);
      case Maintenance => MaintainWritesFiles(s.db, s.now, cfg.retention, cfg.timeout);
      case _ =>
    }
  }

  /** A worker that is ingesting after the step was before it, or has just written its file. */
  lemma WhoIngests(cfg: Config, s: State, step: Step, w: nat)
    requires Enabled(cfg, s, step) && Apply(cfg, s, step).Of(w).Ingesting?
    ensures var t := Apply(cfg, s, step);
      && s.now <= t.now
      && (t.Of(w) == s.Of(w)
          || (&& t.Of(w).lease == s.now == t.now && t.Of(w).job.fileId in t.db.files
              && t.db.files[t.Of(w).job.fileId].updatedAt == s.now))
  {
    hide Register, Maintain, IsHead, Claim, Finalize, Requeue, Enqueue, SetDoc;
  }

  lemma StepKeepsWritten(cfg: Config, s: State, step: Step)
    requires Enabled(cfg, s, step) && FilesWritten(s) && s.db.nextFile !in s.db.files
    ensures FilesWritten(Apply(cfg, s, step))
  {
    var t := Apply(cfg, s, step);
    StepWritesFiles(cfg, s, step);
    hide Apply, Enabled;
    forall w ensures FileWritten(t, w) {
      if t.Of(w).Ingesting? {
        WhoIngests(cfg, s, step, w);
        assert FileWritten(s, w);
      }
    }
  }

  lemma {:induction false} RunKeepsWritten(cfg: Config, s: State, steps: seq<Step>)
    requires Run(cfg, s, steps) && FilesWritten(s) && IngestAgreement.Agree(s)
    ensures FilesWritten(Exec(cfg, s, steps)) && IngestAgreement.Agree(Exec(cfg, s, steps))
    decreases |steps|
  {
    if steps != [] {
      assert IngestAgreement.FilesIndexed(s.db);
      assert s.db.nextFile !in s.db.files;
      hide Apply, Enabled, FilesWritten, IngestAgreement.Agree, IngestAgreement.FilesIndexed;
      StepKeepsWritten(cfg, s, steps[0]);
      IngestAgreement.StepKeeps(cfg, s, steps[0]);
      RunKeepsWritten(cfg, Apply(cfg, s, steps[0]), steps[1..]);
    }
  }

  /** Main result: in every state of every run maintenance leaves the file, and the document,
      of a worker that began to ingest it no longer than a timeout ago as they are. */
  lemma IngestedFileSpared(cfg: Config, start: Time, steps: seq<Step>, w: nat)
    requires Run(cfg, StartState(start), steps)
    requires var s := Exec(cfg, StartState(start), steps);
      s.Of(w).Ingesting? && s.now - s.Of(w).lease <= cfg.timeout
    ensures var s := Exec(cfg, StartState(start), steps);
      && s.Of(w).job.fileId in s.db.files
      && FileKept(s.db, Apply(cfg, s, Maintenance).db, s.Of(w).job.fileId)
  {
    var s0 := StartState(start);
    var s := Exec(cfg, s0, steps);
    StartSound(cfg, start);
    assert forall v :: FileWritten(s0, v);
    RunKeepsWritten(cfg, s0, steps);
    assert FileWritten(s, w);
    assert IngestAgreement.StatusesAgree(s.db) && IngestAgreement.FilesIndexed(s.db);
    hide Run, Exec, StartState, Maintain, IngestAgreement.StatusesAgree, IngestAgreement.FilesIndexed, FileKept, FailedStale;
    MaintainedFile(s.db, s.now, cfg.retention, cfg.timeout, s.Of(w).job.fileId);
  }

  /** Maintenance removes no unfinished job of a leased run, nor the row of a live holder. */
  lemma UnfinishedJobsSpared(cfg: Config, start: Time, steps: seq<Step>, j: nat)
    requires GoodConfig(cfg) && LeasedRun(cfg, StartState(start), steps) && Run(cfg, StartState(start), steps)
    requires var s := Exec(cfg, StartState(start), steps); j in s.db.jobs && Unfinished(s.db.jobs[j])
    ensures var s := Exec(cfg, StartState(start), steps);
      var t := Apply(cfg, s, Maintenance);
      j in t.db.jobs && t.db.jobs[j] == s.db.jobs[j]
  {
    var s := Exec(cfg, StartState(start), steps);
    StartSound(cfg, start);
    RunSafe(cfg, StartState(start), steps);
    assert RowSound(s.db.jobs[j], s.now);
    hide Run, Exec, LeasedRun, StartState, Maintain, Safe, IngestAgreement.Agree;
    MaintainedJob(s.db, s.now, cfg.retention, cfg.timeout, j);
  }
}
