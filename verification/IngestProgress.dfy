/** Which work survives a leased run, and which crash loses it for good. */
module IngestProgress {
  import opened Options
  import opened IngestRows
  import opened IngestProtocol
  import opened IngestLease
  import IngestAgreement

  /** The file row as its retrying worker left it. */
  predicate RetryMatches(db: Db, worker: Worker) {
    match worker
    case Failing(job) =>
      job.fileId in db.files && db.files[job.fileId].status == Failed
      && db.files[job.fileId].retries == job.attempt + 1
    case Backoff(f, _, _) => f in db.files && db.files[f].status == Queued
    case _ => true
  }

  ghost predicate RetriesMatch(s: State) {
    forall w :: RetryMatches(s.db, s.Of(w))
  }

  predicate Exhausted(cfg: Config, file: FileRow) {
    file.status == Failed && file.retries > cfg.maxRetries
  }

  /** Done, out of attempts, or still being worked on. */
  ghost predicate Accounted(cfg: Config, s: State, f: nat) {
    f in s.db.files ==>
      s.db.files[f].status == Completed || Exhausted(cfg, s.db.files[f]) || Busy(s, f)
  }

  ghost predicate AllAccounted(cfg: Config, s: State) {
    forall f :: Accounted(cfg, s, f)
  }

  /** The worker dies between its failed finalization and the re-enqueue it owes. */
  predicate DropsRetry(cfg: Config, s: State, step: Step) {
    step.Crash? && (s.Of(step.w).Backoff?
                    || (s.Of(step.w).Failing? && s.Of(step.w).job.attempt + 1 <= cfg.maxRetries))
  }

  ghost predicate Sound(cfg: Config, s: State) {
    GoodConfig(cfg) && Safe(cfg, s) && IngestAgreement.Agree(s) && RetriesMatch(s)
  }

  // ------------------------------------------------------------ per-step facts

  /** The only file a step may touch, other than by maintenance. */
  function Touched(s: State, step: Step): Option<nat> {
    match step
    case Upload(key, _, _) => if key in s.db.fileOf then Some(s.db.fileOf[key]) else Some(s.db.nextFile)
    case Start(w) => if s.Of(w).Claimed? then Some(s.Of(w).job.fileId) else None
    case Finish(w, _) => if s.Of(w).Ingesting? then Some(s.Of(w).job.fileId) else None
    case Retry(w) => if s.Of(w).Failing? then Some(s.Of(w).job.fileId) else None
    case _ => None
  }

  predicate SameFile(a: Db, b: Db, f: nat) {
    (f in a.files <==> f in b.files)
    && (f in a.files ==> a.files[f].status == b.files[f].status && a.files[f].retries == b.files[f].retries)
  }

  /** An upload as the queue sees it. */
  lemma UploadAs(cfg: Config, s: State, step: Step) returns (g: nat, d: nat, queued: bool)
    requires IngestAgreement.FilesIndexed(s.db) && step.Upload?
    ensures var t := Apply(cfg, s, step);
      && t.workers == s.workers && t.now == s.now && Touched(s, step) == Some(g)
      && UploadShape(s.db, t.db, step.key, g, d, queued, s.now)
  {
    hide Register, IngestAgreement.FilesIndexed;
    g, d, queued := RegisterShape(s.db, step.key, step.upload, step.mime, s.now);
  }

  lemma ShapeOthers(a: Db, b: Db, key: Key, g: nat, d: nat, queued: bool, now: Time, f: nat)
    requires UploadShape(a, b, key, g, d, queued, now) && f != g
    ensures SameFile(a, b, f)
  {
  }

  lemma Untouched(cfg: Config, s: State, step: Step, f: nat)
    requires IngestAgreement.FilesIndexed(s.db)
    requires Enabled(cfg, s, step) && Touched(s, step) != Some(f) && step != Maintenance
    ensures SameFile(s.db, Apply(cfg, s, step).db, f)
  {
    if step.Upload? {
      hide *;
      var g, d, queued := UploadAs(cfg, s, step);
      ShapeOthers(s.db, Apply(cfg, s, step).db, step.key, g, d, queued, s.now, f);
    } else {
      hide IsHead, Register, IngestAgreement.FilesIndexed;
      if step.Dequeue? || step.Update? {
        ClaimKeepsFiles(cfg, s, step);
        hide Apply;
      }
    }
  }

  lemma ClaimKeepsFiles(cfg: Config, s: State, step: Step)
    requires Enabled(cfg, s, step) && (step.Dequeue? || step.Update?)
    ensures Apply(cfg, s, step).db.files == s.db.files
  {
    hide IsHead;
  }

  lemma OtherWorkers(cfg: Config, s: State, step: Step, v: nat)
    requires Enabled(cfg, s, step)
    requires step.Upload? || step.Maintenance? || step.Tick? || step.w != v
    ensures Apply(cfg, s, step).Of(v) == s.Of(v)
  {
    hide IsHead, Register, Maintain, Claim, Begin, Finalize, Requeue, Enqueue;
  }

  /** A live holder's file is busy with exactly its own row. */
  lemma HolderBusy(cfg: Config, s: State, w: nat)
    requires Sound(cfg, s) && Live(cfg, s.Of(w), s.now)
    ensures var job := s.Of(w).job;
      && Open(s.db, job.rowId, job.fileId) && job.fileId in s.db.files
      && s.db.files[job.fileId].status != Completed
      && forall v :: !Retrying(s.Of(v), job.fileId)
  {
    assert IngestAgreement.WorkerRefers(s.db, s.workers[w]);
    assert Open(s.db, s.Of(w).job.rowId, s.Of(w).job.fileId);
  }

  function RetriedFile(worker: Worker): nat
    requires worker.Failing? || worker.Backoff?
  {
    if worker.Failing? then worker.job.fileId else worker.fileId
  }

  lemma SameFileMatches(a: Db, b: Db, worker: Worker)
    requires RetryMatches(a, worker)
    requires worker.Failing? || worker.Backoff? ==> SameFile(a, b, RetriedFile(worker))
    ensures RetryMatches(b, worker)
  {
  }

  /** A step of another worker leaves the file a worker is about to retry as it is. */
  lemma RetriedFileUntouched(cfg: Config, s: State, step: Step, v: nat)
    requires Sound(cfg, s) && Enabled(cfg, s, step) && Leased(cfg, s, step)
    requires s.Of(v).Failing? || s.Of(v).Backoff?
    requires step.Retry? ==> step.w != v
    ensures Touched(s, step) == Some(RetriedFile(s.Of(v))) ==> step.Upload?
  {
    var f := RetriedFile(s.Of(v));
    assert Retrying(s.Of(v), f);
    if step.Start? || step.Finish? { HolderBusy(cfg, s, step.w); }
  }

  lemma UploadRetried(cfg: Config, s: State, step: Step, f: nat)
    requires IngestAgreement.FilesIndexed(s.db) && step.Upload? && Leased(cfg, s, step) && Busy(s, f) && f in s.db.files
    ensures SameFile(s.db, Apply(cfg, s, step).db, f)
  {
    hide Apply, Busy, IngestAgreement.FilesIndexed;
    var g, d, queued := UploadAs(cfg, s, step);
    assert queued ==> g != f;
  }

  lemma MaintainedFile(cfg: Config, s: State, worker: Worker)
    requires RetryMatches(s.db, worker)
    ensures RetryMatches(Apply(cfg, s, Maintenance).db, worker)
  {
  }

  lemma RetriesOfOthers(cfg: Config, s: State, step: Step, v: nat)
    requires Sound(cfg, s) && Enabled(cfg, s, step) && Leased(cfg, s, step)
    requires Apply(cfg, s, step).Of(v) == s.Of(v)
    requires step.Retry? ==> step.w != v
    ensures RetryMatches(Apply(cfg, s, step).db, s.Of(v))
  {
    var t := Apply(cfg, s, step);
    assert RetryMatches(s.db, s.Of(v)) && IngestAgreement.FilesIndexed(s.db);
    if step == Maintenance {
      MaintainedFile(cfg, s, s.Of(v));
    } else if s.Of(v).Failing? || s.Of(v).Backoff? {
      var f := RetriedFile(s.Of(v));
      assert Retrying(s.Of(v), f) && f in s.db.files;
      hide Sound, Apply, Leased, Enabled, RetryMatches, IngestAgreement.FilesIndexed, Touched;
      RetriedFileUntouched(cfg, s, step, v);
      if step.Upload? {
        UploadRetried(cfg, s, step, f);
      } else {
        Untouched(cfg, s, step, f);
      }
      SameFileMatches(s.db, t.db, s.Of(v));
    }
  }

  lemma StepSound(cfg: Config, s: State, step: Step)
    requires Sound(cfg, s) && Enabled(cfg, s, step) && Leased(cfg, s, step)
    ensures Sound(cfg, Apply(cfg, s, step))
  {
    var t := Apply(cfg, s, step);
    StepSafe(cfg, s, step);
    forall v ensures RetryMatches(t.db, t.Of(v)) {
      if step.Upload? || step.Maintenance? || step.Tick? || step.w != v {
        OtherWorkers(cfg, s, step, v);
        RetriesOfOthers(cfg, s, step, v);
      } else {
        OwnRetry(cfg, s, step);
      }
    }
  }

  lemma OwnRetry(cfg: Config, s: State, step: Step)
    requires Sound(cfg, s) && Enabled(cfg, s, step) && Leased(cfg, s, step)
    requires !step.Upload? && !step.Maintenance? && !step.Tick?
    ensures RetryMatches(Apply(cfg, s, step).db, Apply(cfg, s, step).Of(step.w))
  {
    if step.Finish? { HolderBusy(cfg, s, step.w); }
    if step.Retry? { assert RetryMatches(s.db, s.Of(step.w)); }
    hide IsHead, IngestAgreement.Tables, Safe, Claim;
  }

  // -------------------------------------------------------- no work is lost

  /** The step finishes row `j`. */
  predicate Closes(s: State, step: Step, j: nat) {
    step.Finish? && s.Of(step.w).Ingesting? && s.Of(step.w).job.rowId == j
  }

  /** The step creates row `j` for file `f`. */
  predicate Creates(s: State, step: Step, j: nat, f: nat) {
    && j == s.db.nextJob
    && ((step.Reenqueue? && s.Of(step.w).Backoff? && s.Of(step.w).fileId == f)
        || (step.Upload? && Touched(s, step) == Some(f) && (f !in s.db.files || Restarts(s.db, step.key, f))))
  }

  lemma ShapeOpens(a: Db, b: Db, key: Key, g: nat, d: nat, queued: bool, now: Time, j: nat, f: nat)
    requires UploadShape(a, b, key, g, d, queued, now) && (j in a.jobs ==> j < a.nextJob)
    ensures Open(b, j, f) <==> Open(a, j, f) || (queued && j == a.nextJob && f == g)
    ensures queued <==> g !in a.files || Restarts(a, key, g)
  {
  }

  lemma UploadOpens(cfg: Config, s: State, step: Step, j: nat, f: nat)
    requires Sound(cfg, s) && step.Upload?
    ensures Open(Apply(cfg, s, step).db, j, f) <==> Open(s.db, j, f) || Creates(s, step, j, f)
  {
    assert RowsSound(s) && IngestAgreement.FilesIndexed(s.db);
    hide Sound, Apply, Touched, UploadShape, Open, Restarts, IngestAgreement.FilesIndexed;
    var g, d, queued := UploadAs(cfg, s, step);
    ShapeOpens(s.db, Apply(cfg, s, step).db, step.key, g, d, queued, s.now, j, f);
  }

  lemma StartOpens(cfg: Config, s: State, w: nat, j: nat, f: nat)
    requires Sound(cfg, s) && Enabled(cfg, s, Start(w)) && Leased(cfg, s, Start(w))
    ensures Open(Apply(cfg, s, Start(w)).db, j, f) <==> Open(s.db, j, f)
  {
    HolderBusy(cfg, s, w);
    hide Sound;
  }

  lemma FinishOpens(cfg: Config, s: State, step: Step, j: nat, f: nat)
    requires Sound(cfg, s) && step.Finish? && Enabled(cfg, s, step) && Leased(cfg, s, step)
    ensures Open(Apply(cfg, s, step).db, j, f) <==> Open(s.db, j, f) && !Closes(s, step, j)
    ensures Open(s.db, j, f) ==> (Closes(s, step, j) <==> f == s.Of(step.w).job.fileId)
  {
    HolderBusy(cfg, s, step.w);
    assert OneOpenJob(s.db);
    hide Sound;
  }

  lemma MaintenanceOpens(cfg: Config, s: State, j: nat, f: nat)
    requires Sound(cfg, s)
    ensures Open(Apply(cfg, s, Maintenance).db, j, f) <==> Open(s.db, j, f)
  {
    assert RowsSound(s);
    hide Sound;
  }

  /** Exactly which unfinished rows a leased step leaves. */
  lemma OpenAfter(cfg: Config, s: State, step: Step, j: nat, f: nat)
    requires Sound(cfg, s) && Enabled(cfg, s, step) && Leased(cfg, s, step)
    ensures Open(Apply(cfg, s, step).db, j, f) <==>
              (Open(s.db, j, f) && !Closes(s, step, j)) || Creates(s, step, j, f)
    ensures Open(s.db, j, f) && Closes(s, step, j) ==> f == s.Of(step.w).job.fileId
  {
    match step {
      case Upload(_, _, _) => UploadOpens(cfg, s, step, j, f);
      case Start(w) => StartOpens(cfg, s, w, j, f);
      case Finish(_, _) => FinishOpens(cfg, s, step, j, f);
      case Maintenance => MaintenanceOpens(cfg, s, j, f);
      case _ => OtherOpens(cfg, s, step, j, f);
    }
  }

  lemma OtherOpens(cfg: Config, s: State, step: Step, j: nat, f: nat)
    requires Sound(cfg, s) && Enabled(cfg, s, step) && Leased(cfg, s, step)
    requires !step.Upload? && !step.Start? && !step.Finish? && !step.Maintenance?
    ensures Open(Apply(cfg, s, step).db, j, f) <==> Open(s.db, j, f) || Creates(s, step, j, f)
  {
    assert RowsSound(s) && SelectionsPast(s);
    hide Sound, IsHead, Claim, SelectionsPast;
    if step.Dequeue? {
      DequeueOpens(cfg, s, step.w, step.id, j, f);
    } else if step.Update? {
      UpdateOpens(cfg, s, step.w, j, f);
    }
  }

  lemma FinishedFileAccounted(cfg: Config, s: State, w: nat, outcome: Outcome)
    requires Sound(cfg, s) && Enabled(cfg, s, Finish(w, outcome)) && Leased(cfg, s, Finish(w, outcome))
    ensures Accounted(cfg, Apply(cfg, s, Finish(w, outcome)), s.Of(w).job.fileId)
  {
    HolderBusy(cfg, s, w);
    var t := Apply(cfg, s, Finish(w, outcome));
    if outcome.Error? { assert Retrying(t.Of(w), s.Of(w).job.fileId); }
  }

  lemma ShapeAccounted(cfg: Config, s: State, t: State, key: Key, g: nat, d: nat, queued: bool)
    requires UploadShape(s.db, t.db, key, g, d, queued, s.now) && t.workers == s.workers
    requires Accounted(cfg, s, g) && forall j :: j in s.db.jobs ==> j < s.db.nextJob
    ensures Accounted(cfg, t, g)
  {
    assert forall v :: t.Of(v) == s.Of(v);
    if queued {
      assert Open(t.db, s.db.nextJob, g);
    } else if j :| Open(s.db, j, g) {
      assert Open(t.db, j, g);
    } else if w :| Retrying(s.Of(w), g) {
      assert Retrying(t.Of(w), g);
    }
  }

  lemma UploadedFileAccounted(cfg: Config, s: State, step: Step, f: nat)
    requires Sound(cfg, s) && step.Upload?
    requires Touched(s, step) == Some(f) && Accounted(cfg, s, f)
    ensures Accounted(cfg, Apply(cfg, s, step), f)
  {
    assert RowsSound(s) && IngestAgreement.FilesIndexed(s.db);
    assert forall j :: j in s.db.jobs ==> j < s.db.nextJob;
    hide *;
    var g, d, queued := UploadAs(cfg, s, step);
    ShapeAccounted(cfg, s, Apply(cfg, s, step), step.key, g, d, queued);
  }

  lemma BusyStays(cfg: Config, s: State, step: Step, f: nat)
    requires Sound(cfg, s) && Enabled(cfg, s, step) && Leased(cfg, s, step)
    requires Busy(s, f) && !DropsRetry(cfg, s, step)
    requires !(step.Finish? && s.Of(step.w).job.fileId == f)
    ensures Accounted(cfg, Apply(cfg, s, step), f)
  {
    var t := Apply(cfg, s, step);
    if j :| Open(s.db, j, f) {
      OpenAfter(cfg, s, step, j, f);
    } else {
      var w :| Retrying(s.Of(w), f);
      if step.Upload? || step.Maintenance? || step.Tick? || step.w != w {
        OtherWorkers(cfg, s, step, w);
        assert Retrying(t.Of(w), f);
      } else {
        OwnRetryAccounted(cfg, s, step, f);
      }
    }
  }

  lemma OwnRetryAccounted(cfg: Config, s: State, step: Step, f: nat)
    requires Sound(cfg, s) && Enabled(cfg, s, step) && Leased(cfg, s, step) && !DropsRetry(cfg, s, step)
    requires !step.Upload? && !step.Maintenance? && !step.Tick? && Retrying(s.Of(step.w), f)
    ensures Accounted(cfg, Apply(cfg, s, step), f)
  {
    var t := Apply(cfg, s, step);
    assert RetryMatches(s.db, s.Of(step.w));
    hide Sound, IsHead;
    match step {
      case Retry(w) =>
        if t.Of(w).Backoff? { assert Retrying(t.Of(w), f); }
      case Reenqueue(w) => assert Open(t.db, s.db.nextJob, f);
      case Crash(w) =>
    }
  }

  lemma StepAccounted(cfg: Config, s: State, step: Step)
    requires Sound(cfg, s) && Enabled(cfg, s, step) && Leased(cfg, s, step)
    requires AllAccounted(cfg, s) && !DropsRetry(cfg, s, step)
    ensures AllAccounted(cfg, Apply(cfg, s, step))
  {
    var t := Apply(cfg, s, step);
    forall f ensures Accounted(cfg, t, f) {
      assert Accounted(cfg, s, f);
      if step.Finish? && s.Of(step.w).job.fileId == f {
        FinishedFileAccounted(cfg, s, step.w, step.outcome);
      } else if Busy(s, f) {
        BusyStays(cfg, s, step, f);
      } else if step.Upload? && Touched(s, step) == Some(f) {
        UploadedFileAccounted(cfg, s, step, f);
      } else if step == Maintenance {
      } else {
        IdleFileUntouched(cfg, s, step, f);
      }
    }
  }

  /** Only an upload touches a file nobody is working on. */
  lemma IdleFileUntouched(cfg: Config, s: State, step: Step, f: nat)
    requires Sound(cfg, s) && Enabled(cfg, s, step) && Leased(cfg, s, step) && !Busy(s, f)
    requires step != Maintenance && !(step.Upload? && Touched(s, step) == Some(f))
    ensures SameFile(s.db, Apply(cfg, s, step).db, f)
  {
    if Touched(s, step) == Some(f) {
      if step.Start? || step.Finish? {
        HolderBusy(cfg, s, step.w);
      } else {
        assert Retrying(s.Of(step.w), f);
      }
      assert false;
    }
    Untouched(cfg, s, step, f);
  }

  ghost predicate SturdyRun(cfg: Config, s: State, steps: seq<Step>)
    requires Run(cfg, s, steps)
    decreases |steps|
  {
    steps == [] || (!DropsRetry(cfg, s, steps[0]) && SturdyRun(cfg, Apply(cfg, s, steps[0]), steps[1..]))
  }

  lemma {:induction false} RunAccounted(cfg: Config, s: State, steps: seq<Step>)
    requires Sound(cfg, s) && AllAccounted(cfg, s) && LeasedRun(cfg, s, steps)
    requires Run(cfg, s, steps) && SturdyRun(cfg, s, steps)
    ensures Sound(cfg, Exec(cfg, s, steps)) && AllAccounted(cfg, Exec(cfg, s, steps))
    decreases |steps|
  {
    if steps != [] {
      StepSound(cfg, s, steps[0]);
      StepAccounted(cfg, s, steps[0]);
      RunAccounted(cfg, Apply(cfg, s, steps[0]), steps[1..]);
    }
  }

  /** With crashes anywhere but between a failed attempt and its re-enqueue, every file
      ever uploaded is completed, failed for the last time, or still being worked on. */
  lemma NoFileLost(cfg: Config, start: Time, steps: seq<Step>, f: nat)
    requires GoodConfig(cfg) && LeasedRun(cfg, StartState(start), steps)
    requires Run(cfg, StartState(start), steps) && SturdyRun(cfg, StartState(start), steps)
    requires f in Exec(cfg, StartState(start), steps).db.files
    ensures var s := Exec(cfg, StartState(start), steps);
      s.db.files[f].status == Completed || Exhausted(cfg, s.db.files[f]) || Busy(s, f)
  {
    var s0 := StartState(start);
    assert forall w :: s0.Of(w) == Idle;
    RunAccounted(cfg, s0, steps);
    assert Accounted(cfg, Exec(cfg, s0, steps), f);
  }

  /** Exactly the crashes that drop a retry leave a file unaccounted for. */
  lemma CrashLosesIff(cfg: Config, s: State, w: nat)
    requires Sound(cfg, s) && AllAccounted(cfg, s)
    ensures AllAccounted(cfg, Apply(cfg, s, Crash(w))) <==> !DropsRetry(cfg, s, Crash(w))
  {
    if DropsRetry(cfg, s, Crash(w)) {
      var f := if s.Of(w).Backoff? then s.Of(w).fileId else s.Of(w).job.fileId;
      DroppedRetryIdle(cfg, s, w, f);
      assert !Accounted(cfg, Apply(cfg, s, Crash(w)), f);
    } else {
      StepAccounted(cfg, s, Crash(w));
    }
  }

  lemma DroppedRetryIdle(cfg: Config, s: State, w: nat, f: nat)
    requires Sound(cfg, s) && Retrying(s.Of(w), f)
    ensures var t := Apply(cfg, s, Crash(w));
      !Busy(t, f) && t.db == s.db && RetryMatches(s.db, s.Of(w))
  {
    var t := Apply(cfg, s, Crash(w));
    assert OneRetry(s) && RetryMatches(s.db, s.Of(w));
    hide Sound;
    assert forall v :: v != w ==> t.Of(v) == s.Of(v);
    forall v ensures !Retrying(t.Of(v), f) {
    }
    forall j ensures !Open(t.db, j, f) {
    }
  }

  // --------------------------------------------------- and what is lost stays lost

  /** QUEUED, without a job and without a worker that would create one. */
  ghost predicate Stranded(s: State, f: nat) {
    f in s.db.files && s.db.files[f].status == Queued && !Busy(s, f)
  }

  lemma NothingOpens(cfg: Config, s: State, step: Step, f: nat)
    requires Sound(cfg, s) && Enabled(cfg, s, step) && Leased(cfg, s, step) && Stranded(s, f)
    ensures forall j :: !Open(Apply(cfg, s, step).db, j, f)
  {
    forall j ensures !Open(Apply(cfg, s, step).db, j, f) {
      OpenAfter(cfg, s, step, j, f);
      hide Sound, Enabled, Leased, Apply;
      assert !Open(s.db, j, f);
      if step.Reenqueue? { assert !Retrying(s.Of(step.w), f); }
    }
  }

  lemma NothingRetries(cfg: Config, s: State, step: Step, f: nat, v: nat)
    requires Sound(cfg, s) && Enabled(cfg, s, step) && Leased(cfg, s, step) && Stranded(s, f)
    ensures !Retrying(Apply(cfg, s, step).Of(v), f)
  {
    assert !Retrying(s.Of(v), f);
    if step.Upload? || step.Maintenance? || step.Tick? || step.w != v {
      OtherWorkers(cfg, s, step, v);
    } else {
      if step.Finish? {
        HolderBusy(cfg, s, v);
        assert !Open(s.db, s.Of(v).job.rowId, f);
      }
      hide Sound, IsHead;
    }
  }

  lemma StrandedFileUntouched(cfg: Config, s: State, step: Step, f: nat)
    requires Sound(cfg, s) && Enabled(cfg, s, step) && Leased(cfg, s, step) && Stranded(s, f)
    ensures SameFile(s.db, Apply(cfg, s, step).db, f)
  {
    if step.Upload? && Touched(s, step) == Some(f) {
      var g, d, queued := RegisterShape(s.db, step.key, step.upload, step.mime, s.now);
      hide Register;
    } else if step == Maintenance {
      hide Sound;
    } else {
      IdleFileUntouched(cfg, s, step, f);
    }
  }

  lemma StepStranded(cfg: Config, s: State, step: Step, f: nat)
    requires Sound(cfg, s) && Enabled(cfg, s, step) && Leased(cfg, s, step) && Stranded(s, f)
    ensures Stranded(Apply(cfg, s, step), f)
  {
    NothingOpens(cfg, s, step, f);
    StrandedFileUntouched(cfg, s, step, f);
    forall v ensures !Retrying(Apply(cfg, s, step).Of(v), f) {
      NothingRetries(cfg, s, step, f, v);
    }
  }

  /** Nothing rescues a stranded file: not recovery, not maintenance, not a new upload
      of the same digest (its file is QUEUED, so no job is created). */
  lemma {:induction false} StrandedForever(cfg: Config, s: State, steps: seq<Step>, f: nat)
    requires Sound(cfg, s) && Stranded(s, f) && LeasedRun(cfg, s, steps) && Run(cfg, s, steps)
    ensures Stranded(Exec(cfg, s, steps), f)
    decreases |steps|
  {
    if steps != [] {
      StepSound(cfg, s, steps[0]);
      StepStranded(cfg, s, steps[0], f);
      StrandedForever(cfg, Apply(cfg, s, steps[0]), steps[1..], f);
    }
  }

  /** A worker that dies during backoff strands its file in every continuation. */
  lemma BackoffCrashStrands(cfg: Config, s: State, w: nat, steps: seq<Step>)
    requires Sound(cfg, s) && s.Of(w).Backoff?
    requires LeasedRun(cfg, Apply(cfg, s, Crash(w)), steps) && Run(cfg, Apply(cfg, s, Crash(w)), steps)
    ensures Stranded(Exec(cfg, Apply(cfg, s, Crash(w)), steps), s.Of(w).fileId)
  {
    StepSound(cfg, s, Crash(w));
    DroppedRetryIdle(cfg, s, w, s.Of(w).fileId);
    StrandedForever(cfg, Apply(cfg, s, Crash(w)), steps, s.Of(w).fileId);
  }

  /** Such a crash can happen: a leased run to a worker in backoff, whose crash - a leased
      step too - strands its file. */
  lemma StrandedReached(cfg: Config, key: Key, upload: SourceFile, start: Time, message: string)
    returns (steps: seq<Step>)
    requires GoodConfig(cfg) && cfg.maxRetries >= 1
    ensures LeasedRun(cfg, StartState(start), steps) && Run(cfg, StartState(start), steps)
    ensures var t := Exec(cfg, StartState(start), steps);
      && Sound(cfg, t) && t.Of(0).Backoff? && t.Of(0).fileId == 0 && DropsRetry(cfg, t, Crash(0))
      && Stranded(Apply(cfg, t, Crash(0)), 0) && !AllAccounted(cfg, Apply(cfg, t, Crash(0)))
  {
    steps := BackoffReached(cfg, key, upload, start, message);
    var t := Exec(cfg, StartState(start), steps);
    StartIsSound(cfg, start);
    RunSound(cfg, StartState(start), steps);
    hide Exec, LeasedRun, Run, StartState, Sound;
    CrashStrands(cfg, t, 0);
  }

  lemma CrashStrands(cfg: Config, t: State, w: nat)
    requires Sound(cfg, t) && t.Of(w).Backoff?
    ensures Stranded(Apply(cfg, t, Crash(w)), t.Of(w).fileId) && !AllAccounted(cfg, Apply(cfg, t, Crash(w)))
  {
    var f := t.Of(w).fileId;
    assert Retrying(t.Of(w), f);
    DroppedRetryIdle(cfg, t, w, f);
    hide Sound;
    assert !Accounted(cfg, Apply(cfg, t, Crash(w)), f);
  }

  lemma StartIsSound(cfg: Config, start: Time)
    requires GoodConfig(cfg)
    ensures Sound(cfg, StartState(start))
  {
    StartSound(cfg, start);
    hide Safe, IngestAgreement.Agree;
    assert forall w :: StartState(start).Of(w) == Idle;
  }

  lemma {:induction false} RunSound(cfg: Config, s: State, steps: seq<Step>)
    requires Sound(cfg, s) && LeasedRun(cfg, s, steps) && Run(cfg, s, steps)
    ensures Sound(cfg, Exec(cfg, s, steps))
    decreases |steps|
  {
    if steps != [] {
      StepSound(cfg, s, steps[0]);
      hide Sound;
      RunSound(cfg, Apply(cfg, s, steps[0]), steps[1..]);
    }
  }
}
