/** How a row's attempt number grows, and what that does to its retries. */
module IngestAttempts {
  import opened Options
  import opened IngestRows
  import opened IngestProtocol
  import opened IngestClaims
  import opened IngestLease
  import IngestAgreement

  /** How often row `j` is recovered in the run. */
  ghost function Recoveries(cfg: Config, s: State, steps: seq<Step>, j: nat): nat
    requires Run(cfg, s, steps)
    decreases |steps|
  {
    if steps == [] then 0
    else (if Recovers(cfg, s, steps[0], j) then 1 else 0) + Recoveries(cfg, Apply(cfg, s, steps[0]), steps[1..], j)
  }

  // ------------------------------------------------------------------ one commit

  /** Rows that survive keep their attempt, and no old id comes back. */
  ghost predicate AttemptsKept(a: Db, b: Db) {
    && a.nextJob <= b.nextJob
    && forall j :: j in b.jobs && j < a.nextJob ==> j in a.jobs && b.jobs[j].attempt == a.jobs[j].attempt
  }

  lemma BeginAttempts(db: Db, job: Job, now: Time)
    ensures AttemptsKept(db, Begin(db, job, now).0)
  {
  }

  lemma FinalizeAttempts(db: Db, job: Job, outcome: Outcome, now: Time)
    ensures AttemptsKept(db, Finalize(db, job, outcome, now))
  {
  }

  lemma RetryAttempts(db: Db, fileId: nat, docId: Option<nat>, attempt: nat, now: Time)
    ensures AttemptsKept(db, Requeue(db, fileId, attempt, now))
    ensures AttemptsKept(db, Enqueue(db, fileId, docId, attempt, now))
  {
  }

  lemma RegisterAttempts(db: Db, key: Key, upload: SourceFile, mime: Option<string>, now: Time)
    ensures AttemptsKept(db, Register(db, key, upload, mime, now))
  {
    var (db1, d) := RegisterDoc(db, key, mime);
    assert db1.jobs == db.jobs && db1.nextJob == db.nextJob;
    hide RegisterDoc;
    var (db2, f, queued) := RegisterFile(db1, key, upload, d, now);
    assert db2.jobs == db.jobs && db2.nextJob == db.nextJob;
    hide RegisterFile;
  }

  lemma MaintainAttempts(db: Db, now: Time, retention: Time, timeout: Time)
    ensures AttemptsKept(db, Maintain(db, now, retention, timeout))
  {
  }

  lemma ClaimAttempts(db: Db, id: nat, observed: Status, now: Time)
    ensures var (db1, job) := Claim(db, id, observed, now);
      && db1.nextJob == db.nextJob && db1.jobs.Keys == db.jobs.Keys
      && forall j :: j in db.jobs ==>
           db1.jobs[j].attempt == db.jobs[j].attempt
             + if j == id && job.Some? && db.jobs[j].status == Processing then 1 else 0
  {
  }

  lemma OtherStepAttempts(cfg: Config, s: State, step: Step)
    requires Enabled(cfg, s, step) && !step.Dequeue? && !step.Update?
    ensures AttemptsKept(s.db, Apply(cfg, s, step).db)
  {
    hide Register, Maintain, Begin, Finalize, Requeue, Enqueue, AttemptsKept;
    SameAttempts(s.db);
    match step {
      case Upload(key, upload, mime) => RegisterAttempts(s.db, key, upload, mime, s.now);
      case Start(w) => BeginAttempts(s.db, s.Of(w).job, s.now);
      case Finish(w, outcome) => FinalizeAttempts(s.db, s.Of(w).job, outcome, s.now);
      case Retry(w) => RetryAttempts(s.db, s.Of(w).job.fileId, None, s.Of(w).job.attempt + 1, s.now);
      case Reenqueue(w) => RetryAttempts(s.db, s.Of(w).fileId, s.Of(w).docId, s.Of(w).attempt, s.now);
      case ReenqueueAndProcess(w) => RetryAttempts(s.db, s.Of(w).fileId, s.Of(w).docId, s.Of(w).attempt, s.now);
      case Maintenance => MaintainAttempts(s.db, s.now, cfg.retention, cfg.timeout);
      case _ =>
    }
  }

  lemma SameAttempts(db: Db)
    ensures AttemptsKept(db, db)
  {
  }

  /** Only a recovery raises a row's attempt, and by one. */
  lemma StepAttempts(cfg: Config, s: State, step: Step, j: nat)
    requires RowIds(s.db) && Enabled(cfg, s, step) && j < s.db.nextJob && j in Apply(cfg, s, step).db.jobs
    ensures j in s.db.jobs
    ensures Apply(cfg, s, step).db.jobs[j].attempt
         == s.db.jobs[j].attempt + if Recovers(cfg, s, step, j) then 1 else 0
  {
    if step.Dequeue? {
      ClaimAttempts(s.db, step.id, s.db.jobs[step.id].status, s.now);
      hide Claim, IsHead;
    } else if step.Update? {
      ClaimAttempts(s.db, s.Of(step.w).rowId, s.Of(step.w).observed, s.Of(step.w).at);
      assert s.Of(step.w).rowId !in s.db.jobs ==>
        Claim(s.db, s.Of(step.w).rowId, s.Of(step.w).observed, s.Of(step.w).at).1.None?;
      hide Claim;
    } else {
      OtherStepAttempts(cfg, s, step);
      hide Apply;
    }
  }

  // --------------------------------------------------------------------- all of a run

  /** Over any run a surviving row's attempt is the one it had plus its recoveries since. */
  lemma {:induction false} AttemptCounts(cfg: Config, s: State, steps: seq<Step>, j: nat)
    requires RowIds(s.db) && Run(cfg, s, steps) && j < s.db.nextJob && j in Exec(cfg, s, steps).db.jobs
    ensures j in s.db.jobs
    ensures Exec(cfg, s, steps).db.jobs[j].attempt == s.db.jobs[j].attempt + Recoveries(cfg, s, steps, j)
    decreases |steps|
  {
    if steps != [] {
      var t := Apply(cfg, s, steps[0]);
      StepMonotone(cfg, s, steps[0]);
      hide Apply, Recovers, RowIds;
      MonotoneMeans(s.db, t.db);
      AttemptCounts(cfg, t, steps[1..], j);
      StepAttempts(cfg, s, steps[0], j);
    }
  }

  lemma MonotoneMeans(a: Db, b: Db)
    requires Monotone(a, b)
    ensures a.nextJob <= b.nextJob && RowIds(b)
  {
  }

  /** The attempt a live holder works on is its row's. */
  lemma HolderAttempt(cfg: Config, s: State, w: nat)
    requires Safe(cfg, s) && s.Of(w).Ingesting? && Live(cfg, s.Of(w), s.now)
    ensures var job := s.Of(w).job; job.rowId in s.db.jobs && s.db.jobs[job.rowId].attempt == job.attempt
  {
    var job := s.Of(w).job;
    assert RowSound(s.db.jobs[job.rowId], s.now);
    hide OneOpenJob, OneRetry, CompletedIdle, OneHolder, SelectionsPast;
  }

  /** What a failed attempt leads to. */
  lemma FailureRetriedIff(cfg: Config, s: State, w: nat, message: string)
    requires s.Of(w).Ingesting? && s.Of(w).job.fileId in s.db.files
    ensures var job := s.Of(w).job;
      var t := Apply(cfg, s, Finish(w, Error(message)));
      && Enabled(cfg, t, Retry(w))
      && var u := Apply(cfg, t, Retry(w));
         && (u.Of(w).Backoff? <==> job.attempt < cfg.maxRetries)
         && (!u.Of(w).Backoff? ==> u.Of(w).Idle? && job.fileId in u.db.files && u.db.files[job.fileId].status == Failed
                                   && u.db.files[job.fileId].retries > cfg.maxRetries)
  {
    hide SetDoc;
  }

  /** Main result: recoveries use up retries.  In a leased run a failure of the job is retried
      exactly when its attempt at the start plus the recoveries of its row since is below
      `max_retries`; otherwise the file is FAILED for good. */
  lemma RetriedIff(cfg: Config, s: State, steps: seq<Step>, w: nat, message: string)
    requires GoodConfig(cfg) && Safe(cfg, s) && IngestAgreement.Agree(s)
    requires LeasedRun(cfg, s, steps) && Run(cfg, s, steps)
    requires var t := Exec(cfg, s, steps);
      t.Of(w).Ingesting? && Live(cfg, t.Of(w), t.now) && t.Of(w).job.rowId < s.db.nextJob
    ensures var t := Exec(cfg, s, steps);
      var job := t.Of(w).job;
      && job.rowId in s.db.jobs
      && var t1 := Apply(cfg, t, Finish(w, Error(message)));
         && Enabled(cfg, t1, Retry(w))
         && var u := Apply(cfg, t1, Retry(w));
            && (u.Of(w).Backoff? <==>
                  s.db.jobs[job.rowId].attempt + Recoveries(cfg, s, steps, job.rowId) < cfg.maxRetries)
            && (!u.Of(w).Backoff? ==> u.Of(w).Idle? && job.fileId in u.db.files && u.db.files[job.fileId].status == Failed
                                      && u.db.files[job.fileId].retries > cfg.maxRetries)
  {
    var t := Exec(cfg, s, steps);
    RunSafe(cfg, s, steps);
    SafeIds(cfg, s);
    hide Safe, IngestAgreement.Agree, Exec, Run, LeasedRun, Recoveries, Live, Apply, Enabled;
    HolderAttempt(cfg, t, w);
    AttemptCounts(cfg, s, steps, t.Of(w).job.rowId);
    FinisherRefers(t, w);
    FailureRetriedIff(cfg, t, w, message);
  }

  lemma SafeIds(cfg: Config, s: State)
    requires Safe(cfg, s)
    ensures RowIds(s.db)
  {
  }

  // ------------------------------------------------------------- there is no bound on it

  /** Worker 0 holds the one row, on its attempt `n`. */
  predicate HeldOn(s: State, n: nat) {
    && s.workers == map[0 := Claimed(Job(0, 0, Some(0), n), s.now)] && s.db.jobs.Keys == {0}
    && var row := s.db.jobs[0];
       && row.jobType == INGEST && row.status == Processing && row.attempt == n && row.updatedAt == s.now
       && row.payload.fileId == Some(0) && row.payload.docId == Some(0)
  }

  /** The holder dies, a timeout passes, and the next claim recovers the row. */
  lemma OneMoreRecovery(cfg: Config, s: State, n: nat)
    requires GoodConfig(cfg) && HeldOn(s, n)
    ensures var steps := [Crash(0)] + ([Tick(cfg.timeout)] + ([Dequeue(0, 0)] + []));
      LeasedRun(cfg, s, steps) && Run(cfg, s, steps) && HeldOn(Exec(cfg, s, steps), n + 1)
  {
    var s1 := Apply(cfg, s, Crash(0));
    var s2 := Apply(cfg, s1, Tick(cfg.timeout));
    assert s2.Of(0).Idle? && s2.db == s.db;
    assert IsHead(s2.db, 0, s2.now - cfg.timeout);
    var s3 := Apply(cfg, s2, Dequeue(0, 0));
    assert HeldOn(s3, n + 1);
    hide Apply, HeldOn, IsHead;
    NothingLeft(cfg, s3);
    LeasedCons(cfg, s2, Dequeue(0, 0), []);
    LeasedCons(cfg, s1, Tick(cfg.timeout), [Dequeue(0, 0)] + []);
    LeasedCons(cfg, s, Crash(0), [Tick(cfg.timeout)] + ([Dequeue(0, 0)] + []));
  }

  /** Leased runs raise a row's attempt to any number, whatever `max_retries` is. */
  lemma {:induction false} AnyAttemptReached(cfg: Config, key: Key, upload: SourceFile, start: Time, n: nat)
    returns (steps: seq<Step>)
    requires GoodConfig(cfg)
    ensures LeasedRun(cfg, StartState(start), steps) && Run(cfg, StartState(start), steps)
    ensures HeldOn(Exec(cfg, StartState(start), steps), n)
  {
    if n == 0 {
      ClaimReached(cfg, key, upload, start);
      steps := [Upload(key, upload, None)] + ([Dequeue(0, 0)] + []);
      hide Run, LeasedRun, Exec, StartState;
    } else {
      hide *;
      var before := AnyAttemptReached(cfg, key, upload, start, n - 1);
      var s := Exec(cfg, StartState(start), before);
      OneMoreRecovery(cfg, s, n - 1);
      var after := [Crash(0)] + ([Tick(cfg.timeout)] + ([Dequeue(0, 0)] + []));
      LeasedAppend(cfg, StartState(start), before, after);
      steps := before + after;
    }
  }
}
