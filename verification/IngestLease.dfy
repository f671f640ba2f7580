/** Safety of the queue while leases are respected.

    A run is leased when no guarded update that saw its row PROCESSING meets a row a live
    holder has, no worker writes its job row a `timeout` after its last write to it, and
    no digest is uploaded again while its FAILED file still has work pending.  Select and
    claim may be one transaction or two interleaved statements.  Crashes, recovery,
    maintenance and the clock are unrestricted, and any number of workers may have
    overslept: they just stop. */
module IngestLease {
  import opened Options
  import opened IngestRows
  import opened IngestProtocol
  import IngestAgreement

  predicate Unfinished(row: JobRow) {
    row.status == Queued || row.status == Processing
  }

  /** Row `j` is unfinished work for file `f`. */
  predicate Open(db: Db, j: nat, f: nat) {
    j in db.jobs && Unfinished(db.jobs[j]) && db.jobs[j].payload.fileId == Some(f)
  }

  /** The worker is about to enqueue file `f` again. */
  predicate Retrying(worker: Worker, f: nat) {
    (worker.Failing? && worker.job.fileId == f) || (worker.Backoff? && worker.fileId == f)
  }

  predicate Holds(worker: Worker) {
    worker.Claimed? || worker.Ingesting?
  }

  predicate Live(cfg: Config, worker: Worker, now: Time) {
    Holds(worker) && now - worker.lease < cfg.timeout
  }

  ghost predicate Busy(s: State, f: nat) {
    (exists j :: Open(s.db, j, f)) || (exists w :: Retrying(s.Of(w), f))
  }

  /** The file that an upload of `key` would restart. */
  predicate Restarts(db: Db, key: Key, f: nat) {
    key in db.fileOf && db.fileOf[key] == f && f in db.files && db.files[f].status == Failed
  }

  /** A live holder has the row. */
  ghost predicate Held(cfg: Config, s: State, rowId: nat) {
    exists v :: Live(cfg, s.Of(v), s.now) && s.Of(v).job.rowId == rowId
  }

  /** The worker selected its row as stale, and by now a live holder has it. */
  ghost predicate OverridesHolder(cfg: Config, s: State, w: nat) {
    s.Of(w).Selected? && s.Of(w).observed == Processing && Held(cfg, s, s.Of(w).rowId)
  }

  /** What a leased run asks of a step beyond `Enabled`. */
  ghost predicate Leased(cfg: Config, s: State, step: Step) {
    match step
    case Upload(key, _, _) => forall f :: Restarts(s.db, key, f) ==> !Busy(s, f)
    case Update(w) => !OverridesHolder(cfg, s, w)
    case ReenqueueAndProcess(_) => false
    case Start(w) => Live(cfg, s.Of(w), s.now)
    case Finish(w, _) => Live(cfg, s.Of(w), s.now)
    case _ => true
  }

  ghost predicate LeasedRun(cfg: Config, s: State, steps: seq<Step>)
    decreases |steps|
  {
    steps == [] ||
    (Enabled(cfg, s, steps[0]) && Leased(cfg, s, steps[0])
     && LeasedRun(cfg, Apply(cfg, s, steps[0]), steps[1..]))
  }

  lemma {:induction false} LeasedRunsAreRuns(cfg: Config, s: State, steps: seq<Step>)
    requires LeasedRun(cfg, s, steps)
    ensures Run(cfg, s, steps)
    decreases |steps|
  {
    if steps != [] { LeasedRunsAreRuns(cfg, Apply(cfg, s, steps[0]), steps[1..]); }
  }

  lemma LeasedCons(cfg: Config, s: State, step: Step, rest: seq<Step>)
    requires Enabled(cfg, s, step) && Leased(cfg, s, step) && LeasedRun(cfg, Apply(cfg, s, step), rest)
    ensures LeasedRun(cfg, s, [step] + rest) && Run(cfg, s, [step] + rest) && Run(cfg, Apply(cfg, s, step), rest)
    ensures Exec(cfg, s, [step] + rest) == Exec(cfg, Apply(cfg, s, step), rest)
  {
    assert ([step] + rest)[1..] == rest;
    LeasedRunsAreRuns(cfg, Apply(cfg, s, step), rest);
  }

  // -------------------------------------------------------------- invariant

  predicate RowSound(row: JobRow, now: Time) {
    && row.jobType == INGEST && row.updatedAt <= now
    && (row.finishedAt.Some? <==> !Unfinished(row))
    && row.payload.attempt == Some(row.attempt)
  }

  ghost predicate RowsSound(s: State) {
    forall j :: j in s.db.jobs ==> j < s.db.nextJob && RowSound(s.db.jobs[j], s.now)
  }

  ghost predicate OneOpenJob(db: Db) {
    forall f, i, j :: Open(db, i, f) && Open(db, j, f) ==> i == j
  }

  ghost predicate OneRetry(s: State) {
    && (forall f, v, w :: Retrying(s.Of(v), f) && Retrying(s.Of(w), f) ==> v == w)
    && (forall f, w, j :: Retrying(s.Of(w), f) ==> !Open(s.db, j, f))
  }

  ghost predicate CompletedIdle(s: State) {
    forall f :: f in s.db.files && s.db.files[f].status == Completed ==> !Busy(s, f)
  }

  /** A live holder's row is exactly as the holder left it. */
  ghost predicate HoldersOwn(cfg: Config, s: State) {
    forall w :: Holds(s.Of(w)) ==>
      var h := s.Of(w);
      && h.lease <= s.now
      && (Live(cfg, h, s.now) ==>
            && h.job.rowId in s.db.jobs
            && var row := s.db.jobs[h.job.rowId];
               row.status == Processing && row.updatedAt == h.lease
               && row.payload.fileId == Some(h.job.fileId) && row.payload.attempt == Some(h.job.attempt))
  }

  ghost predicate OneHolder(cfg: Config, s: State) {
    forall v, w :: Live(cfg, s.Of(v), s.now) && Live(cfg, s.Of(w), s.now) && v != w ==>
      s.Of(v).job.rowId != s.Of(w).job.rowId
  }

  /** A worker selects what it may claim, and acts on it later. */
  ghost predicate SelectionsPast(s: State) {
    forall w :: s.Of(w).Selected? ==>
      s.Of(w).at <= s.now && (s.Of(w).observed == Queued || s.Of(w).observed == Processing)
  }

  ghost predicate Safe(cfg: Config, s: State) {
    && RowsSound(s) && OneOpenJob(s.db) && OneRetry(s) && CompletedIdle(s)
    && HoldersOwn(cfg, s) && OneHolder(cfg, s) && SelectionsPast(s)
  }

  // ------------------------------------------------------- one lemma per step

  lemma SelectionsKept(cfg: Config, s: State, step: Step)
    requires SelectionsPast(s) && Enabled(cfg, s, step)
    ensures SelectionsPast(Apply(cfg, s, step))
  {
    var t := Apply(cfg, s, step);
    assert forall v :: (step.Upload? || step.Maintenance? || step.Tick? || step.w != v) ==> t.Of(v) == s.Of(v);
    hide Register, Maintain, Claim, Begin, Finalize, Requeue, Enqueue;
  }

  lemma TickSafe(cfg: Config, s: State, elapsed: Time)
    requires Safe(cfg, s) && elapsed >= 0.0
    ensures Safe(cfg, Apply(cfg, s, Tick(elapsed)))
  {
    var t := Apply(cfg, s, Tick(elapsed));
    assert forall w :: t.Of(w) == s.Of(w);
  }

  lemma CrashSafe(cfg: Config, s: State, w: nat)
    requires Safe(cfg, s)
    ensures Safe(cfg, Apply(cfg, s, Crash(w)))
  {
    var t := Apply(cfg, s, Crash(w));
    assert forall v :: t.Of(v) == if v == w then Idle else s.Of(v);
  }

  lemma MaintenanceSafe(cfg: Config, s: State)
    requires Safe(cfg, s)
    ensures Safe(cfg, Apply(cfg, s, Maintenance))
  {
    var t := Apply(cfg, s, Maintenance);
    assert forall v :: t.Of(v) == s.Of(v);
    forall j, f ensures Open(t.db, j, f) <==> Open(s.db, j, f) {
    }
  }

  /** A claim leaves exactly the unfinished rows there were. */
  lemma DequeueOpens(cfg: Config, s: State, w: nat, id: nat, j: nat, f: nat)
    requires Enabled(cfg, s, Dequeue(w, id))
    ensures Open(Apply(cfg, s, Dequeue(w, id)).db, j, f) <==> Open(s.db, j, f)
  {
    assert Eligible(s.db.jobs[id], s.now - cfg.timeout);
    hide IsHead;
  }

  lemma DequeueQueue(cfg: Config, s: State, w: nat, id: nat)
    requires GoodConfig(cfg) && Safe(cfg, s) && Enabled(cfg, s, Dequeue(w, id))
    ensures var t := Apply(cfg, s, Dequeue(w, id));
      RowsSound(t) && OneOpenJob(t.db) && OneRetry(t) && CompletedIdle(t)
  {
    var t := Apply(cfg, s, Dequeue(w, id));
    assert Eligible(s.db.jobs[id], s.now - cfg.timeout);
    assert forall v :: v != w ==> t.Of(v) == s.Of(v);
    forall j, f ensures Open(t.db, j, f) <==> Open(s.db, j, f) { DequeueOpens(cfg, s, w, id, j, f); }
    hide IsHead, HoldersOwn, OneHolder;
  }

  lemma DequeueHolders(cfg: Config, s: State, w: nat, id: nat)
    requires GoodConfig(cfg) && Safe(cfg, s) && Enabled(cfg, s, Dequeue(w, id))
    ensures var t := Apply(cfg, s, Dequeue(w, id)); HoldersOwn(cfg, t) && OneHolder(cfg, t)
  {
    var t := Apply(cfg, s, Dequeue(w, id));
    assert Eligible(s.db.jobs[id], s.now - cfg.timeout);
    assert forall v :: v != w ==> t.Of(v) == s.Of(v);
    hide IsHead, OneOpenJob, OneRetry, CompletedIdle;
  }

  lemma DequeueSafe(cfg: Config, s: State, w: nat, id: nat)
    requires GoodConfig(cfg) && Safe(cfg, s) && Enabled(cfg, s, Dequeue(w, id))
    ensures Safe(cfg, Apply(cfg, s, Dequeue(w, id)))
  {
    DequeueQueue(cfg, s, w, id);
    DequeueHolders(cfg, s, w, id);
    SelectionsKept(cfg, s, Dequeue(w, id));
    hide RowsSound, OneOpenJob, OneRetry, CompletedIdle, HoldersOwn, OneHolder, SelectionsPast, Apply;
  }

  lemma SelectSafe(cfg: Config, s: State, w: nat, id: nat)
    requires Safe(cfg, s) && Enabled(cfg, s, Select(w, id))
    ensures Safe(cfg, Apply(cfg, s, Select(w, id)))
  {
    var t := Apply(cfg, s, Select(w, id));
    assert Eligible(s.db.jobs[id], s.now - cfg.timeout);
    assert t.db == s.db && forall v :: v != w ==> t.Of(v) == s.Of(v);
    hide IsHead;
  }

  /** An update leaves exactly the unfinished rows there were. */
  lemma UpdateOpens(cfg: Config, s: State, w: nat, j: nat, f: nat)
    requires SelectionsPast(s) && s.Of(w).Selected?
    ensures Open(Apply(cfg, s, Update(w)).db, j, f) <==> Open(s.db, j, f)
  {
  }

  lemma UpdateQueue(cfg: Config, s: State, w: nat)
    requires Safe(cfg, s) && s.Of(w).Selected?
    ensures var t := Apply(cfg, s, Update(w));
      RowsSound(t) && OneOpenJob(t.db) && OneRetry(t) && CompletedIdle(t)
  {
    var t := Apply(cfg, s, Update(w));
    assert forall v :: v != w ==> t.Of(v) == s.Of(v);
    forall j, f ensures Open(t.db, j, f) <==> Open(s.db, j, f) { UpdateOpens(cfg, s, w, j, f); }
    hide HoldersOwn, OneHolder;
  }

  lemma UpdateHolders(cfg: Config, s: State, w: nat)
    requires Safe(cfg, s) && s.Of(w).Selected? && !OverridesHolder(cfg, s, w)
    ensures var t := Apply(cfg, s, Update(w)); HoldersOwn(cfg, t) && OneHolder(cfg, t)
  {
    var t := Apply(cfg, s, Update(w));
    assert forall v :: v != w ==> t.Of(v) == s.Of(v);
    if t.db != s.db {
      assert forall v :: Live(cfg, s.Of(v), s.now) ==> s.Of(v).job.rowId != s.Of(w).rowId;
    }
    hide OneOpenJob, OneRetry, CompletedIdle;
  }

  /** The guarded update of a selected row keeps the invariant exactly when it does not take
      a row that it saw PROCESSING from a live holder. */
  lemma UpdateSafeIff(cfg: Config, s: State, w: nat)
    requires GoodConfig(cfg) && Safe(cfg, s) && s.Of(w).Selected?
    ensures Safe(cfg, Apply(cfg, s, Update(w))) <==>
            !(s.Of(w).observed == Processing
              && exists v :: Live(cfg, s.Of(v), s.now) && s.Of(v).job.rowId == s.Of(w).rowId)
  {
    if OverridesHolder(cfg, s, w) {
      HolderLosesRow(cfg, s, w);
    } else {
      UpdateQueue(cfg, s, w);
      UpdateHolders(cfg, s, w);
      SelectionsKept(cfg, s, Update(w));
      hide RowsSound, OneOpenJob, OneRetry, CompletedIdle, HoldersOwn, OneHolder, SelectionsPast, Apply;
    }
  }

  lemma HolderLosesRow(cfg: Config, s: State, w: nat)
    requires Safe(cfg, s) && s.Of(w).Selected? && OverridesHolder(cfg, s, w)
    ensures !HoldersOwn(cfg, Apply(cfg, s, Update(w)))
  {
    var v :| Live(cfg, s.Of(v), s.now) && s.Of(v).job.rowId == s.Of(w).rowId;
    var t := Apply(cfg, s, Update(w));
    assert t.Of(v) == s.Of(v);
    hide OneOpenJob, OneRetry, CompletedIdle;
  }

  /** A live holder's file is not completed, and its row is the file's unfinished one. */
  lemma HolderOpen(cfg: Config, s: State, w: nat)
    requires Safe(cfg, s) && IngestAgreement.Agree(s) && Live(cfg, s.Of(w), s.now)
    ensures var job := s.Of(w).job;
      Open(s.db, job.rowId, job.fileId) && job.fileId in s.db.files && s.db.files[job.fileId].status != Completed
  {
    var job := s.Of(w).job;
    assert IngestAgreement.WorkerRefers(s.db, s.workers[w]);
    hide IngestAgreement.Tables, IngestAgreement.Agree, RowsSound, OneOpenJob, OneRetry, OneHolder;
    assert Open(s.db, job.rowId, job.fileId);
  }

  /** What a worker could check before its begin: the file is COMPLETED, so it will write no
      row of its own; or its row is unfinished, at its attempt, and no one else's. */
  ghost predicate StartFits(cfg: Config, s: State, w: nat)
    requires s.Of(w).Claimed?
  {
    var job := s.Of(w).job;
    || (job.fileId in s.db.files && s.db.files[job.fileId].status == Completed)
    || (&& Open(s.db, job.rowId, job.fileId) && s.db.jobs[job.rowId].attempt == job.attempt
        && forall v :: Live(cfg, s.Of(v), s.now) && v != w ==> s.Of(v).job.rowId != job.rowId)
  }

  /** The begin goes on to ingestion: its file is there and not COMPLETED. */
  predicate Proceeds(s: State, w: nat) {
    s.Of(w).Claimed? && s.Of(w).job.fileId in s.db.files && s.db.files[s.Of(w).job.fileId].status != Completed
  }

  /** A worker within its lease always fits, and proceeds. */
  lemma LiveStartFits(cfg: Config, s: State, w: nat)
    requires Safe(cfg, s) && IngestAgreement.Agree(s) && s.Of(w).Claimed? && Live(cfg, s.Of(w), s.now)
    ensures StartFits(cfg, s, w) && Proceeds(s, w)
  {
    HolderOpen(cfg, s, w);
    var job := s.Of(w).job;
    assert RowSound(s.db.jobs[job.rowId], s.now);
    hide IngestAgreement.Agree, OneOpenJob, OneRetry, CompletedIdle, RowSound;
  }

  lemma StartOpens(cfg: Config, s: State, w: nat, j: nat, f: nat)
    requires Enabled(cfg, s, Start(w)) && Proceeds(s, w) && Open(s.db, s.Of(w).job.rowId, s.Of(w).job.fileId)
    ensures Open(Apply(cfg, s, Start(w)).db, j, f) <==> Open(s.db, j, f)
  {
  }

  lemma StartRows(cfg: Config, s: State, w: nat)
    requires RowsSound(s) && Proceeds(s, w) && Open(s.db, s.Of(w).job.rowId, s.Of(w).job.fileId)
    ensures RowsSound(Apply(cfg, s, Start(w)))
  {
    var t := Apply(cfg, s, Start(w));
    var job := s.Of(w).job;
    assert RowSound(s.db.jobs[job.rowId], s.now);
    assert t.db.jobs == s.db.jobs[job.rowId := t.db.jobs[job.rowId]] && t.db.nextJob == s.db.nextJob;
    assert RowSound(t.db.jobs[job.rowId], t.now);
    hide Begin, RowSound;
  }

  lemma StartQueue(cfg: Config, s: State, w: nat)
    requires Safe(cfg, s) && Proceeds(s, w) && Open(s.db, s.Of(w).job.rowId, s.Of(w).job.fileId)
    ensures var t := Apply(cfg, s, Start(w)); OneOpenJob(t.db) && OneRetry(t) && CompletedIdle(t)
  {
    var t := Apply(cfg, s, Start(w));
    assert forall v :: v != w ==> t.Of(v) == s.Of(v);
    hide HoldersOwn, OneHolder, RowsSound;
    forall j, f ensures Open(t.db, j, f) <==> Open(s.db, j, f) { StartOpens(cfg, s, w, j, f); }
    assert forall f :: f in t.db.files && t.db.files[f].status == Completed ==> f in s.db.files && s.db.files[f].status == Completed;
    hide Begin, Open;
  }

  lemma StartHolders(cfg: Config, s: State, w: nat)
    requires GoodConfig(cfg) && Safe(cfg, s) && Proceeds(s, w) && StartFits(cfg, s, w)
    ensures var t := Apply(cfg, s, Start(w)); HoldersOwn(cfg, t) && OneHolder(cfg, t)
  {
    var t := Apply(cfg, s, Start(w));
    var job := s.Of(w).job;
    assert forall v :: v != w ==> t.Of(v) == s.Of(v);
    assert RowSound(s.db.jobs[job.rowId], s.now);
    assert t.db.jobs == s.db.jobs[job.rowId := t.db.jobs[job.rowId]];
    hide OneOpenJob, OneRetry, CompletedIdle, RowsSound;
  }

  /** A begin that meets a COMPLETED file at most finishes a QUEUED row. */
  lemma CompletedStartSafe(cfg: Config, s: State, w: nat)
    requires Safe(cfg, s) && s.Of(w).Claimed? && !Proceeds(s, w) && s.Of(w).job.fileId in s.db.files
    ensures Safe(cfg, Apply(cfg, s, Start(w)))
  {
    var t := Apply(cfg, s, Start(w));
    assert forall v :: t.Of(v) == if v == w then Idle else s.Of(v);
    if t.db != s.db {
      var id := s.Of(w).job.rowId;
      assert RowSound(s.db.jobs[id], s.now);
      assert t.db == s.db.(jobs := s.db.jobs[id := t.db.jobs[id]]) && !Unfinished(t.db.jobs[id]);
      assert RowSound(t.db.jobs[id], t.now);
      hide Begin;
      forall j, f ensures Open(t.db, j, f) <==> Open(s.db, j, f) && j != id {
      }
    }
  }

  lemma FittingStartSafe(cfg: Config, s: State, w: nat)
    requires GoodConfig(cfg) && Safe(cfg, s) && s.Of(w).Claimed? && StartFits(cfg, s, w)
    requires s.Of(w).job.fileId in s.db.files
    ensures Safe(cfg, Apply(cfg, s, Start(w)))
  {
    if Proceeds(s, w) {
      StartRows(cfg, s, w);
      StartQueue(cfg, s, w);
      StartHolders(cfg, s, w);
      SelectionsKept(cfg, s, Start(w));
      hide RowsSound, OneOpenJob, OneRetry, CompletedIdle, HoldersOwn, OneHolder, SelectionsPast, Apply;
    } else {
      hide Safe, Apply;
      CompletedStartSafe(cfg, s, w);
    }
  }

  lemma StartSafe(cfg: Config, s: State, w: nat)
    requires GoodConfig(cfg) && Safe(cfg, s) && IngestAgreement.Agree(s)
    requires Enabled(cfg, s, Start(w)) && Leased(cfg, s, Start(w))
    ensures Safe(cfg, Apply(cfg, s, Start(w)))
    ensures Apply(cfg, s, Start(w)).Of(w).Ingesting?
  {
    LiveStartFits(cfg, s, w);
    hide Safe, IngestAgreement.Agree, StartFits;
    FittingStartSafe(cfg, s, w);
  }

  /** An overslept begin takes a row that is gone, finished, of another attempt, or held. */
  lemma UnfittingStart(cfg: Config, s: State, w: nat)
    requires GoodConfig(cfg) && Safe(cfg, s) && s.Of(w).Claimed? && !StartFits(cfg, s, w)
    requires s.Of(w).job.fileId in s.db.files
    ensures !Safe(cfg, Apply(cfg, s, Start(w)))
  {
    var job := s.Of(w).job;
    var t := Apply(cfg, s, Start(w));
    assert t.Of(w) == Ingesting(job, s.now) && Live(cfg, t.Of(w), t.now);
    if Open(s.db, job.rowId, job.fileId) && s.db.jobs[job.rowId].attempt == job.attempt {
      var v :| Live(cfg, s.Of(v), s.now) && v != w && s.Of(v).job.rowId == job.rowId;
      assert t.Of(v) == s.Of(v);
      assert !OneHolder(cfg, t);
    } else if job.rowId in s.db.jobs {
      assert RowSound(s.db.jobs[job.rowId], s.now);
      assert t.db.jobs[job.rowId].finishedAt == s.db.jobs[job.rowId].finishedAt;
      assert t.db.jobs[job.rowId].payload == s.db.jobs[job.rowId].payload;
      if s.db.jobs[job.rowId].finishedAt.Some? {
        assert !RowSound(t.db.jobs[job.rowId], t.now);
      } else {
        assert !HoldersOwn(cfg, t);
      }
    } else {
      assert !HoldersOwn(cfg, t);
    }
  }

  /** A begin keeps the invariant exactly when it fits - overslept or not. */
  lemma StartSafeIff(cfg: Config, s: State, w: nat)
    requires GoodConfig(cfg) && Safe(cfg, s) && IngestAgreement.Agree(s) && s.Of(w).Claimed?
    ensures Safe(cfg, Apply(cfg, s, Start(w))) <==> StartFits(cfg, s, w)
  {
    assert IngestAgreement.WorkerRefers(s.db, s.workers[w]);
    hide Safe, Apply, StartFits, IngestAgreement.Agree;
    if StartFits(cfg, s, w) {
      FittingStartSafe(cfg, s, w);
    } else {
      UnfittingStart(cfg, s, w);
    }
  }

  /** What a worker could check before its last write: the row is gone or still at its
      attempt, no one else holds it, and no one else has or owes work on the file. */
  ghost predicate FinishFits(cfg: Config, s: State, w: nat)
    requires s.Of(w).Ingesting?
  {
    var job := s.Of(w).job;
    && (job.rowId in s.db.jobs ==> s.db.jobs[job.rowId].attempt == job.attempt)
    && (forall v :: Live(cfg, s.Of(v), s.now) && v != w ==> s.Of(v).job.rowId != job.rowId)
    && (forall j :: Open(s.db, j, job.fileId) ==> j == job.rowId)
    && (forall v :: !Retrying(s.Of(v), job.fileId))
  }

  /** A worker within its lease always fits. */
  lemma LiveFinishFits(cfg: Config, s: State, w: nat)
    requires Safe(cfg, s) && IngestAgreement.Agree(s) && s.Of(w).Ingesting? && Live(cfg, s.Of(w), s.now)
    ensures FinishFits(cfg, s, w)
  {
    HolderOpen(cfg, s, w);
    hide IngestAgreement.Agree;
  }

  /** Finishing closes the worker's row and no other. */
  lemma FinishOpens(cfg: Config, s: State, w: nat, outcome: Outcome, j: nat, f: nat)
    requires Enabled(cfg, s, Finish(w, outcome))
    ensures Open(Apply(cfg, s, Finish(w, outcome)).db, j, f) <==> Open(s.db, j, f) && j != s.Of(w).job.rowId
  {
  }

  lemma FinishRows(cfg: Config, s: State, w: nat, outcome: Outcome)
    requires RowsSound(s) && Enabled(cfg, s, Finish(w, outcome)) && FinishFits(cfg, s, w)
    ensures RowsSound(Apply(cfg, s, Finish(w, outcome)))
  {
    var t := Apply(cfg, s, Finish(w, outcome));
    var id := s.Of(w).job.rowId;
    assert t.db.nextJob == s.db.nextJob && t.db.jobs.Keys == s.db.jobs.Keys;
    assert forall j :: j in s.db.jobs && j != id ==> t.db.jobs[j] == s.db.jobs[j];
    if id in s.db.jobs {
      assert RowSound(s.db.jobs[id], s.now);
      FinalizedRow(s.db, s.Of(w).job, outcome, s.now);
      assert RowSound(t.db.jobs[id], t.now);
    }
    hide Finalize, RowSound;
  }

  lemma FinalizedRow(db: Db, job: Job, outcome: Outcome, now: Time)
    requires job.rowId in db.jobs && RowSound(db.jobs[job.rowId], now) && db.jobs[job.rowId].attempt == job.attempt
    ensures RowSound(Finalize(db, job, outcome, now).jobs[job.rowId], now)
  {
  }

  lemma FinishQueue(cfg: Config, s: State, w: nat, outcome: Outcome)
    requires Safe(cfg, s) && Enabled(cfg, s, Finish(w, outcome)) && FinishFits(cfg, s, w)
    requires s.Of(w).job.fileId in s.db.files
    ensures var t := Apply(cfg, s, Finish(w, outcome)); OneOpenJob(t.db) && OneRetry(t) && CompletedIdle(t)
  {
    var t := Apply(cfg, s, Finish(w, outcome));
    assert forall v :: v != w ==> t.Of(v) == s.Of(v);
    hide HoldersOwn, OneHolder, RowsSound;
    forall j, f ensures Open(t.db, j, f) <==> (Open(s.db, j, f) && j != s.Of(w).job.rowId) {
      FinishOpens(cfg, s, w, outcome, j, f);
    }
    hide Open;
  }

  lemma FinishHolders(cfg: Config, s: State, w: nat, outcome: Outcome)
    requires HoldersOwn(cfg, s) && OneHolder(cfg, s)
    requires Enabled(cfg, s, Finish(w, outcome)) && FinishFits(cfg, s, w)
    ensures var t := Apply(cfg, s, Finish(w, outcome)); HoldersOwn(cfg, t) && OneHolder(cfg, t)
  {
    var t := Apply(cfg, s, Finish(w, outcome));
    assert forall v :: v != w ==> t.Of(v) == s.Of(v);
    assert forall j :: j in s.db.jobs && j != s.Of(w).job.rowId ==> j in t.db.jobs && t.db.jobs[j] == s.db.jobs[j];
    hide Apply, Finalize;
  }

  lemma FittingFinishSafe(cfg: Config, s: State, w: nat, outcome: Outcome)
    requires Safe(cfg, s) && Enabled(cfg, s, Finish(w, outcome)) && FinishFits(cfg, s, w)
    requires s.Of(w).job.fileId in s.db.files
    ensures Safe(cfg, Apply(cfg, s, Finish(w, outcome)))
  {
    FinishRows(cfg, s, w, outcome);
    FinishQueue(cfg, s, w, outcome);
    FinishHolders(cfg, s, w, outcome);
    SelectionsKept(cfg, s, Finish(w, outcome));
    hide RowsSound, OneOpenJob, OneRetry, CompletedIdle, HoldersOwn, OneHolder, SelectionsPast, Apply;
  }

  lemma FinisherRefers(s: State, w: nat)
    requires IngestAgreement.Agree(s) && s.Of(w).Ingesting?
    ensures s.Of(w).job.fileId in s.db.files
  {
    assert IngestAgreement.WorkerRefers(s.db, s.workers[w]);
  }

  lemma FinishSafe(cfg: Config, s: State, w: nat, outcome: Outcome)
    requires Safe(cfg, s) && IngestAgreement.Agree(s)
    requires Enabled(cfg, s, Finish(w, outcome)) && Leased(cfg, s, Finish(w, outcome))
    ensures Safe(cfg, Apply(cfg, s, Finish(w, outcome)))
  {
    hide Safe, IngestAgreement.Agree, Apply, FinishFits;
    FinisherRefers(s, w);
    LiveFinishFits(cfg, s, w);
    FittingFinishSafe(cfg, s, w, outcome);
  }

  /** A finish keeps the invariant exactly when it fits - overslept or not. */
  lemma FinishSafeIff(cfg: Config, s: State, w: nat, outcome: Outcome)
    requires Safe(cfg, s) && IngestAgreement.Agree(s) && Enabled(cfg, s, Finish(w, outcome))
    ensures Safe(cfg, Apply(cfg, s, Finish(w, outcome))) <==> FinishFits(cfg, s, w)
  {
    FinisherRefers(s, w);
    if FinishFits(cfg, s, w) {
      hide Safe, Apply, FinishFits;
      FittingFinishSafe(cfg, s, w, outcome);
    } else {
      UnfittingFinish(cfg, s, w, outcome);
    }
  }

  lemma UnfittingFinish(cfg: Config, s: State, w: nat, outcome: Outcome)
    requires Safe(cfg, s) && Enabled(cfg, s, Finish(w, outcome)) && !FinishFits(cfg, s, w)
    requires s.Of(w).job.fileId in s.db.files
    ensures !Safe(cfg, Apply(cfg, s, Finish(w, outcome)))
  {
    var job := s.Of(w).job;
    var t := Apply(cfg, s, Finish(w, outcome));
    if job.rowId in s.db.jobs && s.db.jobs[job.rowId].attempt != job.attempt {
      var row := t.db.jobs[job.rowId];
      assert row.payload.attempt == Some(job.attempt) && row.attempt == s.db.jobs[job.rowId].attempt;
      assert !RowsSound(t);
    } else if v :| Live(cfg, s.Of(v), s.now) && v != w && s.Of(v).job.rowId == job.rowId {
      assert t.Of(v) == s.Of(v);
      assert !HoldersOwn(cfg, t);
    } else if j :| Open(s.db, j, job.fileId) && j != job.rowId {
      FinishOpens(cfg, s, w, outcome, j, job.fileId);
      StillBusy(cfg, s, w, outcome, j);
    } else {
      var v :| Retrying(s.Of(v), job.fileId);
      assert t.Of(v) == s.Of(v) && Retrying(t.Of(v), job.fileId);
      if outcome.Ok? {
        assert Busy(t, job.fileId) && !CompletedIdle(t);
      } else {
        assert Retrying(t.Of(w), job.fileId) && !OneRetry(t);
      }
    }
  }

  lemma StillBusy(cfg: Config, s: State, w: nat, outcome: Outcome, j: nat)
    requires Enabled(cfg, s, Finish(w, outcome)) && s.Of(w).job.fileId in s.db.files
    requires Open(Apply(cfg, s, Finish(w, outcome)).db, j, s.Of(w).job.fileId)
    ensures !Safe(cfg, Apply(cfg, s, Finish(w, outcome)))
  {
    var t := Apply(cfg, s, Finish(w, outcome));
    var f := s.Of(w).job.fileId;
    hide Open, RowsSound, HoldersOwn, OneHolder, OneOpenJob;
    if outcome.Ok? {
      assert Busy(t, f) && !CompletedIdle(t);
    } else {
      assert Retrying(t.Of(w), f) && !OneRetry(t);
    }
  }

  /** Only workers and files changed, and who is busy with what did not. */
  lemma SameQueueSafe(cfg: Config, s: State, t: State, w: nat)
    requires Safe(cfg, s) && t.db.jobs == s.db.jobs && t.db.nextJob == s.db.nextJob && t.now == s.now
    requires forall v :: v != w ==> t.Of(v) == s.Of(v)
    requires !Holds(t.Of(w)) && !t.Of(w).Selected?
    requires forall f :: Retrying(t.Of(w), f) ==> Retrying(s.Of(w), f)
    requires forall f :: f in t.db.files && t.db.files[f].status == Completed ==>
      f in s.db.files && s.db.files[f].status == Completed
    ensures Safe(cfg, t)
  {
    assert forall v, f :: Retrying(t.Of(v), f) ==> Retrying(s.Of(v), f);
    assert forall v :: Holds(t.Of(v)) || t.Of(v).Selected? ==> t.Of(v) == s.Of(v);
    hide Retrying, Holds;
    assert forall j, f :: Open(t.db, j, f) <==> Open(s.db, j, f);
    hide Open;
  }

  lemma RetrySafe(cfg: Config, s: State, w: nat)
    requires GoodConfig(cfg) && Safe(cfg, s) && Enabled(cfg, s, Retry(w))
    ensures Safe(cfg, Apply(cfg, s, Retry(w)))
  {
    var t := Apply(cfg, s, Retry(w));
    assert t.db.jobs == s.db.jobs;
    hide Safe;
    SameQueueSafe(cfg, s, t, w);
  }

  lemma ReenqueueSafe(cfg: Config, s: State, w: nat)
    requires GoodConfig(cfg) && Safe(cfg, s) && Enabled(cfg, s, Reenqueue(w))
    ensures Safe(cfg, Apply(cfg, s, Reenqueue(w)))
  {
    var t := Apply(cfg, s, Reenqueue(w));
    assert Retrying(s.Of(w), s.Of(w).fileId);
    assert forall v :: v != w ==> t.Of(v) == s.Of(v);
    forall j, f ensures Open(t.db, j, f) <==> (Open(s.db, j, f) || (j == s.db.nextJob && f == s.Of(w).fileId)) {
    }
  }

  /** What an upload changes, as far as the queue is concerned: it touches file `f`,
      and restarts it with a fresh job exactly when `queued`. */
  ghost predicate UploadShape(db: Db, db': Db, key: Key, f: nat, d: nat, queued: bool, now: Time) {
    && (key in db.fileOf <==> f in db.files) && f == (if key in db.fileOf then db.fileOf[key] else db.nextFile)
    && (queued <==> f !in db.files || Restarts(db, key, f))
    && (forall g :: g in db.files ==> g in db'.files)
    && f in db'.files
    && (forall g :: g in db'.files && g != f ==> g in db.files && db'.files[g] == db.files[g])
    && (if queued then
          && db'.files[f].status == Queued && db'.files[f].retries == 0
          && db'.nextJob == db.nextJob + 1
          && db'.jobs == db.jobs[db.nextJob := NewJobRow(f, Some(d), 0, now)]
        else
          && db'.files[f].status == db.files[f].status && db'.files[f].retries == db.files[f].retries
          && db'.nextJob == db.nextJob && db'.jobs == db.jobs)
  }

  lemma FileShapeFrom(db: Db, key: Key, upload: SourceFile, d: nat, now: Time)
    requires db.nextFile !in db.files && (key in db.fileOf ==> db.fileOf[key] in db.files)
    ensures var (db2, f, queued) := RegisterFile(db, key, upload, d, now);
      UploadShape(db, if queued then Enqueue(db2, f, Some(d), 0, now) else db2, key, f, d, queued, now)
  {
  }

  lemma RegisterFileShape(db: Db, key: Key, upload: SourceFile, d: nat, now: Time)
    requires IngestAgreement.FilesIndexed(db)
    ensures var (db2, f, queued) := RegisterFile(db, key, upload, d, now);
      UploadShape(db, if queued then Enqueue(db2, f, Some(d), 0, now) else db2, key, f, d, queued, now)
  {
    assert db.nextFile !in db.files && (key in db.fileOf ==> db.fileOf[key] in db.files);
    hide *;
    FileShapeFrom(db, key, upload, d, now);
  }

  lemma RegisterShape(db: Db, key: Key, upload: SourceFile, mime: Option<string>, now: Time)
    returns (f: nat, d: nat, queued: bool)
    requires IngestAgreement.FilesIndexed(db)
    ensures UploadShape(db, Register(db, key, upload, mime, now), key, f, d, queued, now)
  {
    var doc := RegisterDoc(db, key, mime);
    d := doc.1;
    var db1 := doc.0;
    assert db1 == db.(docs := db1.docs, docOf := db1.docOf, nextDoc := db1.nextDoc);
    RegisterFileShape(db1, key, upload, d, now);
    var file := RegisterFile(db1, key, upload, d, now);
    f, queued := file.1, file.2;
    assert Register(db, key, upload, mime, now) == if queued then Enqueue(file.0, f, Some(d), 0, now) else file.0;
    hide RegisterFile, RegisterDoc, Register, Enqueue, IngestAgreement.FilesIndexed;
  }

  /** No one refers to a file that does not exist yet. */
  lemma NewFileIdle(s: State, f: nat)
    requires IngestAgreement.Agree(s) && f !in s.db.files
    ensures !Busy(s, f)
  {
    forall w ensures !Retrying(s.Of(w), f) {
      if w in s.workers { assert IngestAgreement.WorkerRefers(s.db, s.workers[w]); }
    }
  }

  lemma QueuedUploadSafe(cfg: Config, s: State, t: State, f: nat, d: nat)
    requires Safe(cfg, s) && !Busy(s, f)
    requires t.workers == s.workers && t.now == s.now && f in t.db.files && t.db.files[f].status == Queued
    requires forall g :: g in t.db.files && g != f ==> g in s.db.files && t.db.files[g] == s.db.files[g]
    requires t.db.nextJob == s.db.nextJob + 1
    requires t.db.jobs == s.db.jobs[s.db.nextJob := NewJobRow(f, Some(d), 0, s.now)]
    ensures Safe(cfg, t)
  {
    assert forall v :: t.Of(v) == s.Of(v);
    forall j, g ensures Open(t.db, j, g) <==> (Open(s.db, j, g) || (j == s.db.nextJob && g == f)) {
    }
  }

  lemma PlainUploadSafe(cfg: Config, s: State, t: State)
    requires Safe(cfg, s)
    requires t.workers == s.workers && t.now == s.now
    requires forall g :: g in t.db.files ==> g in s.db.files && t.db.files[g].status == s.db.files[g].status
    requires t.db.jobs == s.db.jobs && t.db.nextJob == s.db.nextJob
    ensures Safe(cfg, t)
  {
    assert forall v :: t.Of(v) == s.Of(v);
    forall j, g ensures Open(t.db, j, g) <==> Open(s.db, j, g) {
    }
  }

  lemma UploadSafe(cfg: Config, s: State, step: Step)
    requires Safe(cfg, s) && IngestAgreement.Agree(s)
    requires step.Upload? && Leased(cfg, s, step)
    ensures Safe(cfg, Apply(cfg, s, step))
  {
    var t := Apply(cfg, s, step);
    var f, d, queued := RegisterShape(s.db, step.key, step.upload, step.mime, s.now);
    hide Register, Safe, IngestAgreement.Agree, Busy;
    if queued {
      if f !in s.db.files { NewFileIdle(s, f); }
      QueuedUploadSafe(cfg, s, t, f, d);
    } else {
      PlainUploadSafe(cfg, s, t);
    }
  }

  lemma StepSafe(cfg: Config, s: State, step: Step)
    requires GoodConfig(cfg) && Safe(cfg, s) && IngestAgreement.Agree(s)
    requires Enabled(cfg, s, step) && Leased(cfg, s, step)
    ensures Safe(cfg, Apply(cfg, s, step)) && IngestAgreement.Agree(Apply(cfg, s, step))
  {
    IngestAgreement.StepKeeps(cfg, s, step);
    hide Safe, IngestAgreement.Agree, Apply, Enabled;
    match step {
      case Upload(key, upload, mime) => UploadSafe(cfg, s, step);
      case Dequeue(w, id) => DequeueSafe(cfg, s, w, id);
      case Select(w, id) => SelectSafe(cfg, s, w, id);
      case Update(w) => UpdateSafeIff(cfg, s, w);
      case Start(w) => StartSafe(cfg, s, w);
      case Finish(w, outcome) => FinishSafe(cfg, s, w, outcome);
      case Retry(w) => RetrySafe(cfg, s, w);
      case Reenqueue(w) => ReenqueueSafe(cfg, s, w);
      case Crash(w) => CrashSafe(cfg, s, w);
      case Maintenance => MaintenanceSafe(cfg, s);
      case Tick(elapsed) => TickSafe(cfg, s, elapsed);
    }
  }

  lemma {:induction false} RunSafe(cfg: Config, s: State, steps: seq<Step>)
    requires GoodConfig(cfg) && Safe(cfg, s) && IngestAgreement.Agree(s) && LeasedRun(cfg, s, steps)
    ensures Run(cfg, s, steps)
    ensures Safe(cfg, Exec(cfg, s, steps)) && IngestAgreement.Agree(Exec(cfg, s, steps))
    decreases |steps|
  {
    if steps != [] {
      StepSafe(cfg, s, steps[0]);
      RunSafe(cfg, Apply(cfg, s, steps[0]), steps[1..]);
    }
  }

  /** The queue's contract, in every state a leased run reaches from empty tables. */
  lemma QueueSafety(cfg: Config, start: Time, steps: seq<Step>)
    requires GoodConfig(cfg) && LeasedRun(cfg, StartState(start), steps)
    ensures Run(cfg, StartState(start), steps)
    ensures var s := Exec(cfg, StartState(start), steps);
      // at most one unfinished job per file
      && (forall f, i, j :: Open(s.db, i, f) && Open(s.db, j, f) ==> i == j)
      // at most one live holder per row, and its row is PROCESSING
      && (forall v, w :: Live(cfg, s.Of(v), s.now) && Live(cfg, s.Of(w), s.now) && v != w ==>
            s.Of(v).job.rowId != s.Of(w).job.rowId)
      && (forall w :: Live(cfg, s.Of(w), s.now) ==>
            s.Of(w).job.rowId in s.db.jobs && s.db.jobs[s.Of(w).job.rowId].status == Processing)
      // finished_at marks exactly the finished rows
      && (forall j :: j in s.db.jobs ==> (s.db.jobs[j].finishedAt.Some? <==> !Unfinished(s.db.jobs[j])))
      // a completed file has no unfinished job and no retry under way
      && (forall f :: f in s.db.files && s.db.files[f].status == Completed ==> !Busy(s, f))
  {
    var s0 := StartState(start);
    assert forall w :: s0.Of(w) == Idle;
    RunSafe(cfg, s0, steps);
  }

  /** A database claim never meets the early return that would leave its row PROCESSING:
      the file exists, is not completed, and ingestion proceeds. */
  lemma ClaimedJobsProceed(cfg: Config, start: Time, steps: seq<Step>, w: nat)
    requires GoodConfig(cfg) && LeasedRun(cfg, StartState(start), steps)
    requires Run(cfg, StartState(start), steps)
    requires var s := Exec(cfg, StartState(start), steps);
      s.Of(w).Claimed? && Live(cfg, s.Of(w), s.now)
    ensures var s := Exec(cfg, StartState(start), steps);
      var job := s.Of(w).job;
      && job.fileId in s.db.files && s.db.files[job.fileId].status != Completed
      && Begin(s.db, job, s.now).1 && Apply(cfg, s, Start(w)).Of(w).Ingesting?
  {
    var s := Exec(cfg, StartState(start), steps);
    StartSound(cfg, start);
    hide Safe, IngestAgreement.Agree, StartState, Exec, Run, LeasedRun;
    RunSafe(cfg, StartState(start), steps);
    LiveStartFits(cfg, s, w);
  }

  /** Uploading a digest again is safe exactly when it does not restart a file that is
      still being worked on: the second live job appears in precisely the other case. */
  lemma ReuploadSafeIff(cfg: Config, s: State, key: Key, upload: SourceFile, mime: Option<string>)
    requires GoodConfig(cfg) && Safe(cfg, s) && IngestAgreement.Agree(s)
    ensures Safe(cfg, Apply(cfg, s, Upload(key, upload, mime))) <==>
            forall f :: Restarts(s.db, key, f) ==> !Busy(s, f)
  {
    if forall f :: Restarts(s.db, key, f) ==> !Busy(s, f) {
      UploadSafe(cfg, s, Upload(key, upload, mime));
    } else {
      var f :| Restarts(s.db, key, f) && Busy(s, f);
      SecondLiveJob(cfg, s, key, upload, mime, f);
    }
  }

  /** What a restart adds to the tables: one QUEUED row for the file. */
  lemma RestartAdds(db: Db, key: Key, upload: SourceFile, mime: Option<string>, now: Time, f: nat)
    requires IngestAgreement.FilesIndexed(db) && Restarts(db, key, f)
    ensures var db' := Register(db, key, upload, mime, now);
      && Open(db', db.nextJob, f)
      && forall j :: j in db.jobs && j != db.nextJob ==> j in db'.jobs && db'.jobs[j] == db.jobs[j]
  {
    hide Register, IngestAgreement.FilesIndexed;
    var g, d, queued := RegisterShape(db, key, upload, mime, now);
    assert g == f && queued;
  }

  /** Restarting a file that is being worked on: its new row stands beside every unfinished
      row it had, and beside the retry a worker owes it. */
  lemma SecondLiveJob(cfg: Config, s: State, key: Key, upload: SourceFile, mime: Option<string>, f: nat)
    requires Safe(cfg, s) && IngestAgreement.Agree(s) && Restarts(s.db, key, f) && Busy(s, f)
    ensures var t := Apply(cfg, s, Upload(key, upload, mime));
      && Open(t.db, s.db.nextJob, f)
      && (forall j :: Open(s.db, j, f) ==> j != s.db.nextJob && Open(t.db, j, f))
      && (forall w :: Retrying(s.Of(w), f) ==> Retrying(t.Of(w), f))
      && ((exists j :: Open(s.db, j, f)) ==> !OneOpenJob(t.db))
      && ((exists w :: Retrying(s.Of(w), f)) ==> !OneRetry(t))
  {
    var t := Apply(cfg, s, Upload(key, upload, mime));
    assert t.workers == s.workers && t.db == Register(s.db, key, upload, mime, s.now);
    assert forall j :: j in s.db.jobs ==> j < s.db.nextJob;
    assert IngestAgreement.FilesIndexed(s.db);
    hide *;
    RestartAdds(s.db, key, upload, mime, s.now, f);
    BesideNewRow(s, t, f);
  }

  lemma BesideNewRow(s: State, t: State, f: nat)
    requires t.workers == s.workers && (forall j :: j in s.db.jobs ==> j < s.db.nextJob)
    requires Open(t.db, s.db.nextJob, f)
    requires forall j :: j in s.db.jobs ==> j in t.db.jobs && t.db.jobs[j] == s.db.jobs[j]
    ensures forall j :: Open(s.db, j, f) ==> j != s.db.nextJob && Open(t.db, j, f)
    ensures forall w :: Retrying(s.Of(w), f) ==> Retrying(t.Of(w), f)
    ensures (exists j :: Open(s.db, j, f)) ==> !OneOpenJob(t.db)
    ensures (exists w :: Retrying(s.Of(w), f)) ==> !OneRetry(t)
  {
    assert forall w :: t.Of(w) == s.Of(w);
    forall j | Open(s.db, j, f) ensures j != s.db.nextJob && Open(t.db, j, f) {
    }
    hide Open, Retrying;
  }

  // ------------------------------------------------- why the assumptions are needed

  /** A worker that oversleeps its lease and finishes after its row was recovered finishes
      the row under the live holder. */
  lemma OversleptFinishUnsafe(cfg: Config, s: State, late: nat, live: nat, outcome: Outcome)
    requires Safe(cfg, s) && Enabled(cfg, s, Finish(late, outcome)) && late != live
    requires Live(cfg, s.Of(live), s.now) && s.Of(live).job.rowId == s.Of(late).job.rowId
    requires s.Of(late).job.fileId in s.db.files
    ensures !Live(cfg, s.Of(late), s.now)
    ensures var t := Apply(cfg, s, Finish(late, outcome));
      && Live(cfg, t.Of(live), t.now) && t.Of(live).job.rowId in t.db.jobs
      && !Unfinished(t.db.jobs[t.Of(live).job.rowId]) && !Safe(cfg, t)
  {
    var t := Apply(cfg, s, Finish(late, outcome));
    assert t.Of(live) == s.Of(live);
    assert Holds(t.Of(live));
  }

  /** With immediate processing the retried row is QUEUED while it is being worked on, so
      another worker can claim it: one row, two live holders. */
  lemma ImmediateProcessingUnsafe(cfg: Config, s: State, w: nat, v: nat)
    requires GoodConfig(cfg) && Enabled(cfg, s, ReenqueueAndProcess(w)) && v != w
    requires Enabled(cfg, Apply(cfg, s, ReenqueueAndProcess(w)), Dequeue(v, s.db.nextJob))
    ensures var t := Apply(cfg, Apply(cfg, s, ReenqueueAndProcess(w)), Dequeue(v, s.db.nextJob));
      Live(cfg, t.Of(v), t.now) && Live(cfg, t.Of(w), t.now) && t.Of(v).job == t.Of(w).job && !OneHolder(cfg, t)
  {
    var t := Apply(cfg, Apply(cfg, s, ReenqueueAndProcess(w)), Dequeue(v, s.db.nextJob));
    hide IsHead;
    assert Live(cfg, t.Of(v), t.now) && Live(cfg, t.Of(w), t.now);
  }

  /** Immediate processing never keeps the invariant: the worker holds a QUEUED row. */
  lemma ImmediateProcessingNeverSafe(cfg: Config, s: State, w: nat)
    requires GoodConfig(cfg) && Enabled(cfg, s, ReenqueueAndProcess(w))
    ensures !Safe(cfg, Apply(cfg, s, ReenqueueAndProcess(w)))
  {
    var t := Apply(cfg, s, ReenqueueAndProcess(w));
    assert Live(cfg, t.Of(w), t.now) && t.db.jobs[t.Of(w).job.rowId].status == Queued;
    assert !HoldersOwn(cfg, t);
  }

  // -------------------------------------------------------------- runs there are

  /** From empty tables, one upload, one claim and one begin are a leased run, after which
      worker 0 is ingesting file 0. */
  lemma IngestingReached(cfg: Config, key: Key, upload: SourceFile, start: Time)
    requires GoodConfig(cfg)
    ensures var steps := [Upload(key, upload, None)] + ([Dequeue(0, 0)] + ([Start(0)] + []));
      && LeasedRun(cfg, StartState(start), steps) && Run(cfg, StartState(start), steps)
      && var t := Exec(cfg, StartState(start), steps);
         && t.workers == map[0 := Ingesting(Job(0, 0, Some(0), 0), start)] && t.now == start
         && t.db.jobs == map[0 := NewJobRow(0, Some(0), 0, start).(status := Processing, startedAt := Some(start))]
         && t.db.nextJob == 1 && key in t.db.fileOf && t.db.fileOf[key] == 0
         && 0 in t.db.files && t.db.files[0].key == key && t.db.files[0].docId == Some(0)
  {
    var s0 := StartState(start);
    var s1 := Apply(cfg, s0, Upload(key, upload, None));
    assert s1.db.jobs == map[0 := NewJobRow(0, Some(0), 0, start)];
    var s2 := Apply(cfg, s1, Dequeue(0, 0));
    var s3 := Apply(cfg, s2, Start(0));
    LeasedCons(cfg, s2, Start(0), []);
    LeasedCons(cfg, s1, Dequeue(0, 0), [Start(0)] + []);
    assert Leased(cfg, s0, Upload(key, upload, None));
    LeasedCons(cfg, s0, Upload(key, upload, None), [Dequeue(0, 0)] + ([Start(0)] + []));
    hide LeasedRun, Run, Exec, Register;
  }

  lemma {:induction false} LeasedAppend(cfg: Config, s: State, a: seq<Step>, b: seq<Step>)
    requires LeasedRun(cfg, s, a) && Run(cfg, s, a) && LeasedRun(cfg, Exec(cfg, s, a), b)
    ensures LeasedRun(cfg, s, a + b) && Run(cfg, s, a + b) && Run(cfg, Exec(cfg, s, a), b)
    ensures Exec(cfg, s, a + b) == Exec(cfg, Exec(cfg, s, a), b)
    decreases |a|
  {
    if a == [] {
      assert a + b == b;
      LeasedRunsAreRuns(cfg, s, b);
    } else {
      assert (a + b)[1..] == a[1..] + b;
      LeasedAppend(cfg, Apply(cfg, s, a[0]), a[1..], b);
    }
  }

  /** The worker finishes: its job and its file are COMPLETED, and the run was leased. */
  lemma CompletionReached(cfg: Config, key: Key, upload: SourceFile, start: Time, chunks: nat)
    returns (steps: seq<Step>)
    requires GoodConfig(cfg)
    ensures LeasedRun(cfg, StartState(start), steps) && Run(cfg, StartState(start), steps)
    ensures var t := Exec(cfg, StartState(start), steps);
      && 0 in t.db.jobs && t.db.jobs[0].status == Completed && t.db.jobs[0].finishedAt == Some(start)
      && 0 in t.db.files && t.db.files[0].status == Completed && t.db.files[0].chunks == Some(chunks)
  {
    IngestingReached(cfg, key, upload, start);
    var before := [Upload(key, upload, None)] + ([Dequeue(0, 0)] + ([Start(0)] + []));
    var s := Exec(cfg, StartState(start), before);
    var finish := Finish(0, Ok(chunks));
    hide Exec, Run, LeasedRun;
    NothingLeft(cfg, Apply(cfg, s, finish));
    LeasedCons(cfg, s, finish, []);
    LeasedAppend(cfg, StartState(start), before, [finish] + []);
    steps := before + ([finish] + []);
  }

  lemma NothingLeft(cfg: Config, s: State)
    ensures LeasedRun(cfg, s, []) && Run(cfg, s, []) && Exec(cfg, s, []) == s
  {
  }

  /** From empty tables, one upload and one claim: worker 0 holds row 0 of file 0. */
  lemma ClaimReached(cfg: Config, key: Key, upload: SourceFile, start: Time)
    requires GoodConfig(cfg)
    ensures var steps := [Upload(key, upload, None)] + ([Dequeue(0, 0)] + []);
      && LeasedRun(cfg, StartState(start), steps) && Run(cfg, StartState(start), steps)
      && var t := Exec(cfg, StartState(start), steps);
         && t.now == start && t.workers == map[0 := Claimed(Job(0, 0, Some(0), 0), start)] && 0 in t.db.files
         && t.db.files[0].status == Queued
         && t.db.jobs == map[0 := NewJobRow(0, Some(0), 0, start).(status := Processing, startedAt := Some(start))]
  {
    var s0 := StartState(start);
    var s1 := Apply(cfg, s0, Upload(key, upload, None));
    assert s1.db.jobs == map[0 := NewJobRow(0, Some(0), 0, start)];
    var s2 := Apply(cfg, s1, Dequeue(0, 0));
    assert Leased(cfg, s0, Upload(key, upload, None));
    NothingLeft(cfg, s2);
    LeasedCons(cfg, s1, Dequeue(0, 0), []);
    LeasedCons(cfg, s0, Upload(key, upload, None), [Dequeue(0, 0)] + []);
    hide LeasedRun, Run, Exec, Register;
  }

  /** A timeout after worker 0 began, worker 1 recovers the row. */
  lemma RecoveryFollows(cfg: Config, s: State, start: Time)
    requires GoodConfig(cfg) && s.now == start && s.workers == map[0 := Ingesting(Job(0, 0, Some(0), 0), start)]
    requires s.db.jobs == map[0 := NewJobRow(0, Some(0), 0, start).(status := Processing, startedAt := Some(start))]
    requires 0 in s.db.files
    ensures var steps := [Tick(cfg.timeout)] + ([Dequeue(1, 0)] + []);
      && LeasedRun(cfg, s, steps) && Run(cfg, s, steps)
      && var t := Exec(cfg, s, steps);
         && t.Of(0) == s.Of(0) && t.Of(1) == Claimed(Job(0, 0, Some(0), 1), t.now) && 0 in t.db.files
  {
    var s1 := Apply(cfg, s, Tick(cfg.timeout));
    assert IsHead(s1.db, 0, s1.now - cfg.timeout);
    var t := Apply(cfg, s1, Dequeue(1, 0));
    assert t.Of(1) == Claimed(Job(0, 0, Some(0), 1), t.now) && t.Of(0) == s.Of(0) && 0 in t.db.files;
    NothingLeft(cfg, t);
    LeasedCons(cfg, s1, Dequeue(1, 0), []);
    LeasedCons(cfg, s, Tick(cfg.timeout), [Dequeue(1, 0)] + []);
    hide LeasedRun, Run, Exec, Claim;
  }

  /** Worker 0 overslept and worker 1 holds its row: worker 0's finish would break the invariant. */
  ghost predicate Overslept(cfg: Config, t: State, outcome: Outcome) {
    && Live(cfg, t.Of(1), t.now) && t.Of(1).job == Job(0, 0, Some(0), 1)
    && Enabled(cfg, t, Finish(0, outcome)) && Safe(cfg, t) && !Safe(cfg, Apply(cfg, t, Finish(0, outcome)))
  }

  lemma RecoveredIsOverslept(cfg: Config, t: State, start: Time, outcome: Outcome)
    requires GoodConfig(cfg) && Safe(cfg, t) && 0 in t.db.files
    requires t.Of(0) == Ingesting(Job(0, 0, Some(0), 0), start) && t.Of(1) == Claimed(Job(0, 0, Some(0), 1), t.now)
    ensures Overslept(cfg, t, outcome)
  {
    hide Safe, Apply;
    OversleptFinishUnsafe(cfg, t, 0, 1, outcome);
  }

  /** The assumption on leases is needed: a leased run after which the worker that overslept
      can still finish, and would break the invariant the run had kept. */
  lemma OversleptReached(cfg: Config, key: Key, upload: SourceFile, start: Time, outcome: Outcome)
    returns (steps: seq<Step>)
    requires GoodConfig(cfg)
    ensures LeasedRun(cfg, StartState(start), steps) && Run(cfg, StartState(start), steps)
    ensures Overslept(cfg, Exec(cfg, StartState(start), steps), outcome)
  {
    IngestingReached(cfg, key, upload, start);
    StartSound(cfg, start);
    var s0 := StartState(start);
    var before := [Upload(key, upload, None)] + ([Dequeue(0, 0)] + ([Start(0)] + []));
    var s := Exec(cfg, s0, before);
    assert s.Of(0) == Ingesting(Job(0, 0, Some(0), 0), start);
    hide *;
    var after := [Tick(cfg.timeout)] + ([Dequeue(1, 0)] + []);
    RecoveryFollows(cfg, s, start);
    LeasedAppend(cfg, s0, before, after);
    steps := before + after;
    RunSafe(cfg, s0, steps);
    RecoveredIsOverslept(cfg, Exec(cfg, s0, steps), start, outcome);
  }

  lemma StartSound(cfg: Config, start: Time)
    ensures Safe(cfg, StartState(start)) && IngestAgreement.Agree(StartState(start))
  {
  }

  /** The first attempt fails: the file is FAILED and its worker owes it a retry. */
  lemma FailureFollows(cfg: Config, s: State, start: Time, message: string)
    requires s.now == start && s.workers == map[0 := Ingesting(Job(0, 0, Some(0), 0), start)]
    requires cfg.timeout > 0.0
    requires 0 in s.db.jobs && 0 in s.db.files
    ensures var finish := Finish(0, Error(message));
      && Enabled(cfg, s, finish) && Leased(cfg, s, finish)
      && var t := Apply(cfg, s, finish);
         && t.workers == map[0 := Failing(Job(0, 0, Some(0), 0))] && t.now == start
         && t.db.files.Keys == s.db.files.Keys && t.db.files[0].status == Failed && t.db.fileOf == s.db.fileOf
         && t.db.jobs == s.db.jobs[0 := t.db.jobs[0]] && t.db.jobs[0].status == Failed && t.db.nextJob == s.db.nextJob
  {
    var t := Apply(cfg, s, Finish(0, Error(message)));
    assert t.workers == map[0 := Failing(Job(0, 0, Some(0), 0))];
  }

  /** A leased run to a state where uploading the digest again restarts a file that its
      worker is about to retry - and breaks the invariant. */
  lemma RestartReached(cfg: Config, key: Key, upload: SourceFile, start: Time, message: string)
    returns (steps: seq<Step>)
    requires GoodConfig(cfg)
    ensures LeasedRun(cfg, StartState(start), steps) && Run(cfg, StartState(start), steps)
    ensures var t := Exec(cfg, StartState(start), steps);
      && Safe(cfg, t) && Restarts(t.db, key, 0) && Busy(t, 0)
      && forall again, mime :: !Safe(cfg, Apply(cfg, t, Upload(key, again, mime)))
  {
    steps := FailureReached(cfg, key, upload, start, message);
    var t := Exec(cfg, StartState(start), steps);
    assert Retrying(t.Of(0), 0);
    StartSound(cfg, start);
    RunSafe(cfg, StartState(start), steps);
    hide Exec, Run, LeasedRun, Safe, StartState, IngestAgreement.Agree;
    assert Restarts(t.db, key, 0) && Busy(t, 0);
    forall again, mime ensures !Safe(cfg, Apply(cfg, t, Upload(key, again, mime))) {
      ReuploadSafeIff(cfg, t, key, again, mime);
      hide *;
    }
  }

  lemma FailureReached(cfg: Config, key: Key, upload: SourceFile, start: Time, message: string)
    returns (steps: seq<Step>)
    requires GoodConfig(cfg)
    ensures LeasedRun(cfg, StartState(start), steps) && Run(cfg, StartState(start), steps)
    ensures var t := Exec(cfg, StartState(start), steps);
      && t.workers == map[0 := Failing(Job(0, 0, Some(0), 0))] && t.now == start
      && 0 in t.db.files && t.db.files[0].status == Failed && key in t.db.fileOf && t.db.fileOf[key] == 0
      && t.db.jobs.Keys == {0} && t.db.jobs[0].status == Failed && t.db.nextJob == 1
  {
    IngestingReached(cfg, key, upload, start);
    var before := [Upload(key, upload, None)] + ([Dequeue(0, 0)] + ([Start(0)] + []));
    var s := Exec(cfg, StartState(start), before);
    var finish := Finish(0, Error(message));
    hide Exec, Run, LeasedRun, StartState, Apply;
    FailureFollows(cfg, s, start, message);
    NothingLeft(cfg, Apply(cfg, s, finish));
    LeasedCons(cfg, s, finish, []);
    LeasedAppend(cfg, StartState(start), before, [finish] + []);
    steps := before + ([finish] + []);
  }

  /** One more leased step: the worker sleeps before its second attempt. */
  lemma BackoffReached(cfg: Config, key: Key, upload: SourceFile, start: Time, message: string)
    returns (steps: seq<Step>)
    requires GoodConfig(cfg) && cfg.maxRetries >= 1
    ensures LeasedRun(cfg, StartState(start), steps) && Run(cfg, StartState(start), steps)
    ensures var t := Exec(cfg, StartState(start), steps);
      && t.Of(0).Backoff? && t.Of(0).fileId == 0 && t.Of(0).attempt == 1 && t.Of(1).Idle? && t.now == start
      && 0 in t.db.files && t.db.files[0].status == Queued
      && t.db.jobs.Keys == {0} && t.db.jobs[0].status == Failed && t.db.nextJob == 1
  {
    var before := FailureReached(cfg, key, upload, start, message);
    var s := Exec(cfg, StartState(start), before);
    hide Exec, Run, LeasedRun, StartState;
    assert s.Of(0) == Failing(Job(0, 0, Some(0), 0));
    var t := Apply(cfg, s, Retry(0));
    assert t.Of(0).Backoff? && t.Of(1).Idle?;
    hide Apply;
    NothingLeft(cfg, t);
    LeasedCons(cfg, s, Retry(0), []);
    LeasedAppend(cfg, StartState(start), before, [Retry(0)] + []);
    steps := before + ([Retry(0)] + []);
  }

  /** From there immediate processing gives, in two steps, one row with two live holders. */
  lemma RaceFollows(cfg: Config, s: State, start: Time)
    requires GoodConfig(cfg) && s.now == start && s.Of(0).Backoff? && s.Of(1).Idle?
    requires s.db.jobs.Keys == {0} && s.db.jobs[0].status == Failed && s.db.nextJob == 1
    ensures Enabled(cfg, s, ReenqueueAndProcess(0))
    ensures var s1 := Apply(cfg, s, ReenqueueAndProcess(0));
      && Enabled(cfg, s1, Dequeue(1, 1))
      && var t := Apply(cfg, s1, Dequeue(1, 1));
         Live(cfg, t.Of(0), t.now) && Live(cfg, t.Of(1), t.now) && t.Of(0).job == t.Of(1).job
  {
    var s1 := Apply(cfg, s, ReenqueueAndProcess(0));
    assert s1.db.jobs.Keys == {0, 1} && s1.db.jobs[1].status == Queued && s1.db.jobs[0] == s.db.jobs[0];
    assert IsHead(s1.db, 1, s1.now - cfg.timeout);
    ImmediateProcessingUnsafe(cfg, s, 0, 1);
    hide IsHead;
  }

  /** The race is reachable: a run whose every step but the immediate one is leased. */
  lemma ImmediateRaceReached(cfg: Config, key: Key, upload: SourceFile, start: Time, message: string)
    returns (steps: seq<Step>)
    requires GoodConfig(cfg) && cfg.maxRetries >= 1
    ensures Run(cfg, StartState(start), steps)
    ensures var t := Exec(cfg, StartState(start), steps);
      Live(cfg, t.Of(0), t.now) && Live(cfg, t.Of(1), t.now) && t.Of(0).job == t.Of(1).job
  {
    var before := BackoffReached(cfg, key, upload, start, message);
    var s := Exec(cfg, StartState(start), before);
    hide *;
    RaceFollows(cfg, s, start);
    var s1 := Apply(cfg, s, ReenqueueAndProcess(0));
    var t := Apply(cfg, s1, Dequeue(1, 1));
    NothingLeft(cfg, t);
    RunCons(cfg, s1, Dequeue(1, 1), []);
    RunCons(cfg, s, ReenqueueAndProcess(0), [Dequeue(1, 1)] + []);
    steps := before + ([ReenqueueAndProcess(0)] + ([Dequeue(1, 1)] + []));
    RunAppend(cfg, StartState(start), before, [ReenqueueAndProcess(0)] + ([Dequeue(1, 1)] + []));
  }
}
