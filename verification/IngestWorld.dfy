/** One worker processing jobs, as functions on the tables and its surroundings.

    `clock` and `ingest` stand for everything outside: the successive readings of the
    clock and the results of the successive `_ingest_file` calls are arbitrary.
    `IngestService` proves its methods against these functions. */
module IngestWorld {
  import opened Options
  import opened IngestRows

  datatype Env = Env(
    clock: nat -> Time, ingest: nat -> Outcome,
    maxRetries: nat, backoff: real, timeout: Time, retention: Time, autoProcess: bool)

  /** `attempts` logs (file, attempt) of every ingest call; `slept` is the total backoff. */
  datatype World = World(db: Db, ticks: nat, calls: nat, slept: real, attempts: seq<(nat, nat)>)

  ghost predicate GoodEnv(env: Env) {
    && env.timeout > 0.0 && env.retention > 0.0 && env.backoff >= 0.0
    && forall i, j :: 0 <= i <= j ==> env.clock(i) <= env.clock(j)
  }

  function Pow2(n: nat): nat {
    if n == 0 then 1 else 2 * Pow2(n - 1)
  }

  function Left(env: Env, attempt: nat): nat {
    if attempt > env.maxRetries then 0 else env.maxRetries + 1 - attempt
  }

  /** The sleep before attempt number `attempt`. */
  function Delay(env: Env, attempt: nat): real
    requires attempt > 0
  {
    env.backoff * Pow2(attempt - 1) as real
  }

  /** `enqueue_job` with its own session. */
  function EnqueueJob(env: Env, w: World, fileId: nat, docId: Option<nat>, attempt: nat): World
    decreases Left(env, attempt), 2
  {
    var w1 := w.(db := Enqueue(w.db, fileId, docId, attempt, env.clock(w.ticks)), ticks := w.ticks + 1);
    if env.autoProcess then Process(env, w1, Job(w.db.nextJob, fileId, docId, attempt)) else w1
  }

  /** `_process`. */
  function Process(env: Env, w: World, job: Job): World
    decreases Left(env, job.attempt), 1
  {
    var (db1, proceed) := Begin(w.db, job, env.clock(w.ticks));
    if !proceed then w.(db := db1, ticks := w.ticks + 1)
    else
      var outcome := env.ingest(w.calls);
      var w2 := w.(db := Finalize(db1, job, outcome, env.clock(w.ticks + 1)), ticks := w.ticks + 2,
                   calls := w.calls + 1, attempts := w.attempts + [(job.fileId, job.attempt)]);
      if outcome.Ok? then w2 else HandleFailure(env, w2, job)
  }

  /** `_handle_failure`. */
  function HandleFailure(env: Env, w: World, job: Job): World
    decreases Left(env, job.attempt), 0
  {
    var attempt := job.attempt + 1;
    if attempt > env.maxRetries then w
    else
      var delay := Delay(env, attempt);
      if job.fileId !in w.db.files then w.(slept := w.slept + delay)
      else
        var w1 := w.(db := Requeue(w.db, job.fileId, attempt, env.clock(w.ticks)), ticks := w.ticks + 1,
                     slept := w.slept + delay);
        EnqueueJob(env, w1, job.fileId, w.db.files[job.fileId].docId, attempt)
  }

  // ------------------------------------------------------ a file that always fails

  /** (f, first), (f, first+1), ..., (f, last). */
  function Attempts(f: nat, first: nat, last: nat): seq<(nat, nat)>
    requires first <= last + 1
    decreases last + 1 - first
  {
    if first == last + 1 then [] else [(f, first)] + Attempts(f, first + 1, last)
  }

  /** The delays after the failures number `first` to `last - 1`. */
  function Backoffs(env: Env, first: nat, last: nat): real {
    env.backoff * (Pow2(last) - Pow2(first)) as real
  }

  predicate FailedRow(db: Db, j: int, f: nat, attempt: int) {
    && j in db.jobs && db.jobs[j].status == Failed && db.jobs[j].finishedAt.Some?
    && db.jobs[j].payload.fileId == Some(f) && db.jobs[j].attempt == attempt
    && db.jobs[j].payload.attempt == Some(attempt)
  }

  /** Rows created one per attempt: row `i` failed on attempt `i - base`. */
  predicate FailedFrom(db: Db, i: int, f: nat, base: int) {
    FailedRow(db, i, f, i - base)
  }

  ghost predicate AllFailedFrom(db: Db, first: int, end: int, f: nat, base: int) {
    forall i :: first <= i < end ==> FailedFrom(db, i, f, base)
  }

  /** The job's row and file are as a claim or an enqueue leaves them. */
  predicate OwnRow(db: Db, job: Job) {
    && job.rowId in db.jobs && job.rowId < db.nextJob
    && db.jobs[job.rowId].payload.fileId == Some(job.fileId)
    && db.jobs[job.rowId].attempt == job.attempt
    && job.fileId in db.files && db.files[job.fileId].status != Completed
  }

  /** From `a` to `b`, `n` rows were added, and of the old ones only `own` changed. */
  ghost predicate RowsAdded(a: Db, b: Db, own: nat, n: nat) {
    && b.nextJob == a.nextJob + n
    && (forall j :: j in b.jobs <==> j in a.jobs || a.nextJob <= j < a.nextJob + n)
    && (forall j :: j in a.jobs && j != own ==> j in b.jobs && b.jobs[j] == a.jobs[j])
  }

  /** One FAILED row for each attempt from `attempt` to `last`: the job's own row and new ones. */
  ghost predicate FailedRows(a: Db, b: Db, job: Job, last: nat) {
    && job.attempt <= last
    && RowsAdded(a, b, job.rowId, last - job.attempt)
    && FailedRow(b, job.rowId, job.fileId, job.attempt)
    && AllFailedFrom(b, a.nextJob, a.nextJob + (last - job.attempt), job.fileId, a.nextJob - job.attempt - 1)
  }

  predicate FailedFile(db: Db, f: nat, retries: nat) {
    f in db.files && db.files[f].status == Failed && db.files[f].retries == retries
  }

  /** Every attempt up to the last one failed, and the delays in between added up. */
  ghost predicate GaveUp(env: Env, a: World, b: World, job: Job) {
    && job.attempt <= env.maxRetries
    && b.attempts == a.attempts + Attempts(job.fileId, job.attempt, env.maxRetries)
    && b.slept == a.slept + Backoffs(env, job.attempt, env.maxRetries)
    && FailedRows(a.db, b.db, job, env.maxRetries)
    && FailedFile(b.db, job.fileId, env.maxRetries + 1)
  }

  function FailOnce(db: Db, job: Job, outcome: Outcome, t0: Time, t1: Time): Db {
    Finalize(Begin(db, job, t0).0, job, outcome, t1)
  }

  lemma FailOnceRow(db: Db, job: Job, outcome: Outcome, t0: Time, t1: Time)
    requires OwnRow(db, job) && outcome.Error?
    ensures var db1 := FailOnce(db, job, outcome, t0, t1);
      && Begin(db, job, t0).1
      && RowsAdded(db, db1, job.rowId, 0)
      && FailedRow(db1, job.rowId, job.fileId, job.attempt)
      && FailedFile(db1, job.fileId, job.attempt + 1)
  {
  }

  function RetryOnce(db: Db, f: nat, docId: Option<nat>, attempt: nat, t0: Time, t1: Time): Db {
    Enqueue(Requeue(db, f, attempt, t0), f, docId, attempt, t1)
  }

  lemma RetryOnceRow(db: Db, f: nat, docId: Option<nat>, attempt: nat, t0: Time, t1: Time, own: nat)
    requires RowIds(db) && f in db.files && own in db.jobs
    ensures var db1 := RetryOnce(db, f, docId, attempt, t0, t1);
      && RowIds(db1) && RowsAdded(db, db1, db.nextJob, 1) && db1.jobs[own] == db.jobs[own]
      && OwnRow(db1, Job(db.nextJob, f, docId, attempt))
  {
  }

  lemma RetryUnfolds(env: Env, w: World, job: Job)
    requires env.autoProcess && job.attempt + 1 <= env.maxRetries && job.fileId in w.db.files
    ensures var a, docId := job.attempt + 1, w.db.files[job.fileId].docId;
      HandleFailure(env, w, job) == Process(env,
        World(RetryOnce(w.db, job.fileId, docId, a, env.clock(w.ticks), env.clock(w.ticks + 1)),
              w.ticks + 2, w.calls, w.slept + Delay(env, a), w.attempts),
        Job(w.db.nextJob, job.fileId, docId, a))
  {
    hide Begin, Finalize, Enqueue, Delay, Process;
    var a, docId := job.attempt + 1, w.db.files[job.fileId].docId;
    var w1 := w.(db := Requeue(w.db, job.fileId, a, env.clock(w.ticks)), ticks := w.ticks + 1,
                 slept := w.slept + Delay(env, a));
    assert w1.db.nextJob == w.db.nextJob;
    assert HandleFailure(env, w, job) == EnqueueJob(env, w1, job.fileId, docId, a);
  }

  lemma FailureUnfolds(env: Env, w: World, job: Job)
    requires OwnRow(w.db, job) && env.ingest(w.calls).Error?
    ensures var db1 := FailOnce(w.db, job, env.ingest(w.calls), env.clock(w.ticks), env.clock(w.ticks + 1));
      && Process(env, w, job) == HandleFailure(env,
           World(db1, w.ticks + 2, w.calls + 1, w.slept, w.attempts + [(job.fileId, job.attempt)]), job)
      && RowsAdded(w.db, db1, job.rowId, 0)
      && FailedRow(db1, job.rowId, job.fileId, job.attempt)
      && FailedFile(db1, job.fileId, job.attempt + 1)
  {
    hide Begin, Finalize, HandleFailure, RowsAdded, FailedRow, FailedFile, OwnRow;
    FailOnceRow(w.db, job, env.ingest(w.calls), env.clock(w.ticks), env.clock(w.ticks + 1));
  }

  lemma {:induction false} AlwaysFailing(env: Env, w: World, job: Job)
    requires env.autoProcess && job.attempt <= env.maxRetries
    requires OwnRow(w.db, job) && RowIds(w.db)
    requires forall n :: w.calls <= n ==> env.ingest(n).Error?
    ensures GaveUp(env, w, Process(env, w, job), job)
    decreases env.maxRetries - job.attempt
  {
    hide Begin, Finalize, Requeue, Enqueue, Process, EnqueueJob, FailOnce, RetryOnce, AllFailedFrom, Backoffs;
    FailureUnfolds(env, w, job);
    var f, a := job.fileId, job.attempt + 1;
    var w1 := World(FailOnce(w.db, job, env.ingest(w.calls), env.clock(w.ticks), env.clock(w.ticks + 1)),
                    w.ticks + 2, w.calls + 1, w.slept, w.attempts + [(f, job.attempt)]);
    if a <= env.maxRetries {
      FailuresContinue(env, w, w1, job);
    } else {
      assert Attempts(f, job.attempt, env.maxRetries) == [(f, job.attempt)];
      NoDelay(env, env.maxRetries);
      assert AllFailedFrom(w1.db, w.db.nextJob, w.db.nextJob, f, w.db.nextJob - job.attempt - 1) by { NoRows(w1.db, w.db.nextJob, f, w.db.nextJob - job.attempt - 1); }
    }
  }

  lemma NoRows(db: Db, n: int, f: nat, base: int)
    ensures AllFailedFrom(db, n, n, f, base)
  {
  }

  lemma {:induction false} FailuresContinue(env: Env, w: World, w1: World, job: Job)
    requires env.autoProcess && job.attempt + 1 <= env.maxRetries
    requires OwnRow(w.db, job) && RowIds(w.db)
    requires forall n :: w.calls <= n ==> env.ingest(n).Error?
    requires RowsAdded(w.db, w1.db, job.rowId, 0) && FailedRow(w1.db, job.rowId, job.fileId, job.attempt)
    requires FailedFile(w1.db, job.fileId, job.attempt + 1)
    requires w1.calls == w.calls + 1 && w1.slept == w.slept && w1.attempts == w.attempts + [(job.fileId, job.attempt)]
    ensures GaveUp(env, w, HandleFailure(env, w1, job), job)
    decreases env.maxRetries - job.attempt, 0
  {
    var f, a := job.fileId, job.attempt + 1;
    var docId, t0, t1 := w1.db.files[f].docId, env.clock(w1.ticks), env.clock(w1.ticks + 1);
    RetryUnfolds(env, w1, job);
    RetryOnceRow(w1.db, f, docId, a, t0, t1, job.rowId);
    FailedFilePresent(w1.db, f, a);
    OwnRowPresent(w.db, job);
    hide *;
    var w3 := World(RetryOnce(w1.db, f, docId, a, t0, t1), w1.ticks + 2, w1.calls,
                    w1.slept + Delay(env, a), w1.attempts);
    var next := Job(w1.db.nextJob, f, docId, a);
    AlwaysFailing(env, w3, next);
    OneMoreFailure(env, w, w1, w3, Process(env, w3, next), job, next);
  }

  lemma FailedFilePresent(db: Db, f: nat, retries: nat)
    requires FailedFile(db, f, retries)
    ensures f in db.files
  {
  }

  /** A failed attempt, a retry, and giving up from there is giving up. */
  lemma OneMoreFailure(env: Env, w: World, w1: World, w3: World, end: World, job: Job, next: Job)
    requires RowIds(w.db) && job.rowId in w.db.jobs && job.rowId in w1.db.jobs && job.rowId in w3.db.jobs
    requires RowsAdded(w.db, w1.db, job.rowId, 0) && FailedRow(w1.db, job.rowId, job.fileId, job.attempt)
    requires RowsAdded(w1.db, w3.db, w1.db.nextJob, 1) && w3.db.jobs[job.rowId] == w1.db.jobs[job.rowId]
    requires next == Job(w1.db.nextJob, job.fileId, next.docId, job.attempt + 1)
    requires w1.slept == w.slept && w1.attempts == w.attempts + [(job.fileId, job.attempt)]
    requires w3.slept == w1.slept + Delay(env, job.attempt + 1) && w3.attempts == w1.attempts
    requires GaveUp(env, w3, end, next)
    ensures GaveUp(env, w, end, job)
  {
    hide RowsAdded, FailedRow, FailedRows, FailedFile, Delay, Backoffs, RowIds;
    MoreFailedRows(w.db, w1.db, w3.db, end.db, job, next, env.maxRetries);
    MoreDelay(env, job.attempt, env.maxRetries);
    assert w.attempts + [(job.fileId, job.attempt)] + Attempts(job.fileId, job.attempt + 1, env.maxRetries)
        == w.attempts + Attempts(job.fileId, job.attempt, env.maxRetries);
  }

  lemma OwnRowPresent(db: Db, job: Job)
    requires OwnRow(db, job)
    ensures job.rowId in db.jobs
  {
  }

  lemma MoreDelay(env: Env, attempt: nat, last: nat)
    ensures Delay(env, attempt + 1) + Backoffs(env, attempt + 1, last) == Backoffs(env, attempt, last)
  {
    var x, y := Pow2(attempt) as real, (Pow2(last) - Pow2(attempt + 1)) as real;
    assert x + y == (Pow2(last) - Pow2(attempt)) as real;
    assert env.backoff * x + env.backoff * y == env.backoff * (x + y);
  }

  lemma NoDelay(env: Env, last: nat)
    ensures Backoffs(env, last, last) == 0.0
    ensures Backoffs(env, 0, last) == env.backoff * (Pow2(last) - 1) as real
  {
  }

  /** The failed row of this attempt joins the failed rows of all later ones. */
  lemma MoreFailedRows(a: Db, b: Db, c: Db, d: Db, job: Job, next: Job, last: nat)
    requires RowIds(a) && job.rowId in a.jobs
    requires RowsAdded(a, b, job.rowId, 0) && FailedRow(b, job.rowId, job.fileId, job.attempt)
    requires RowsAdded(b, c, b.nextJob, 1) && c.jobs[job.rowId] == b.jobs[job.rowId]
    requires next == Job(b.nextJob, job.fileId, next.docId, job.attempt + 1)
    requires FailedRows(c, d, next, last)
    ensures FailedRows(a, d, job, last)
  {
    var base := a.nextJob - job.attempt - 1;
    forall i | a.nextJob <= i < a.nextJob + (last - job.attempt)
      ensures FailedFrom(d, i, job.fileId, base)
    {
      assert base == c.nextJob - next.attempt - 1;
      if i == next.rowId {
        assert FailedRow(d, next.rowId, next.fileId, next.attempt);
      } else {
        assert FailedFrom(d, i, next.fileId, base);
      }
    }
    assert FailedRow(d, job.rowId, job.fileId, job.attempt);
  }

  lemma FirstRows(a: Db, b: Db, d: Db, job: Job, last: nat)
    requires RowIds(a) && job.rowId == a.nextJob && job.attempt == 0
    requires RowsAdded(a, b, a.nextJob, 1) && FailedRows(b, d, job, last)
    requires forall j :: j in a.jobs ==> a.jobs[j].payload.fileId != Some(job.fileId)
    ensures AllFailedFrom(d, a.nextJob, a.nextJob + last + 1, job.fileId, a.nextJob)
    ensures forall j :: j in d.jobs && d.jobs[j].payload.fileId == Some(job.fileId) <==>
              a.nextJob <= j < a.nextJob + last + 1
  {
    var f, n := job.fileId, a.nextJob;
    forall j: int | n <= j < n + last + 1 ensures FailedFrom(d, j, f, n) {
      if j == n {
        assert FailedRow(d, j, f, 0);
      } else {
        assert FailedFrom(d, j, f, b.nextJob - 1);
      }
    }
    forall j: nat | n <= j < n + last + 1 ensures j in d.jobs && d.jobs[j].payload.fileId == Some(f) {
      assert FailedFrom(d, j, f, n);
    }
    forall j | j in d.jobs && d.jobs[j].payload.fileId == Some(f) ensures n <= j < n + last + 1 {
      if j in a.jobs { assert b.jobs[j] == a.jobs[j]; }
    }
  }

  /** A first upload whose file can never be ingested: `maxRetries + 1` attempts numbered
      from 0, one FAILED row for each, and a backoff of `backoff * (2^maxRetries - 1)`. */
  lemma FirstUploadAlwaysFails(env: Env, w: World, f: nat, docId: Option<nat>)
    requires env.autoProcess && RowIds(w.db)
    requires f in w.db.files && w.db.files[f].status == Queued
    requires forall j :: j in w.db.jobs ==> w.db.jobs[j].payload.fileId != Some(f)
    requires forall n :: w.calls <= n ==> env.ingest(n).Error?
    ensures var end := EnqueueJob(env, w, f, docId, 0);
      && end.attempts == w.attempts + Attempts(f, 0, env.maxRetries)
      && end.slept == w.slept + env.backoff * (Pow2(env.maxRetries) - 1) as real
      && (forall j :: j in end.db.jobs && end.db.jobs[j].payload.fileId == Some(f) <==>
            w.db.nextJob <= j < w.db.nextJob + env.maxRetries + 1)
      && AllFailedFrom(end.db, w.db.nextJob, w.db.nextJob + env.maxRetries + 1, f, w.db.nextJob)
      && FailedFile(end.db, f, env.maxRetries + 1)
  {
    hide *;
    var w1 := w.(db := Enqueue(w.db, f, docId, 0, env.clock(w.ticks)), ticks := w.ticks + 1);
    var job := Job(w.db.nextJob, f, docId, 0);
    EnqueueUnfolds(env, w, f, docId);
    AlwaysFailing(env, w1, job);
    var end := Process(env, w1, job);
    GaveUpMeans(env, w1, end, job);
    FirstRows(w.db, w1.db, end.db, job, env.maxRetries);
    NoDelay(env, env.maxRetries);
  }

  lemma GaveUpMeans(env: Env, a: World, b: World, job: Job)
    requires GaveUp(env, a, b, job)
    ensures job.attempt <= env.maxRetries
    ensures b.attempts == a.attempts + Attempts(job.fileId, job.attempt, env.maxRetries)
    ensures b.slept == a.slept + Backoffs(env, job.attempt, env.maxRetries)
    ensures FailedRows(a.db, b.db, job, env.maxRetries) && FailedFile(b.db, job.fileId, env.maxRetries + 1)
  {
  }

  lemma EnqueueUnfolds(env: Env, w: World, f: nat, docId: Option<nat>)
    requires env.autoProcess && RowIds(w.db) && f in w.db.files && w.db.files[f].status == Queued
    ensures var w1 := w.(db := Enqueue(w.db, f, docId, 0, env.clock(w.ticks)), ticks := w.ticks + 1);
      var job := Job(w.db.nextJob, f, docId, 0);
      && EnqueueJob(env, w, f, docId, 0) == Process(env, w1, job)
      && RowsAdded(w.db, w1.db, w.db.nextJob, 1) && OwnRow(w1.db, job) && RowIds(w1.db)
  {
    hide Process;
  }
}
