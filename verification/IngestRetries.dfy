/** The retries of one file through the queue table: every round of `drain` may serve some
    other file, and the retries of this one add up all the same. */
module IngestRetries {
  import opened Options
  import opened IngestRows
  import opened IngestLease
  import opened IngestWorld
  import opened IngestRounds

  // ------------------------------------------------------------ the log of attempts

  /** The backoff slept after an attempt. */
  function Charge(env: Env, attempt: nat, outcome: Outcome): real {
    if outcome.Error? && attempt + 1 <= env.maxRetries then Delay(env, attempt + 1) else 0.0
  }

  /** The backoff slept after the logged calls from number `first` on - those for one file, or all. */
  function Charged(env: Env, log: seq<(nat, nat)>, first: nat, f: Option<nat>): real {
    if |log| <= first then 0.0
    else
      var n := |log| - 1;
      Charged(env, log[..n], first, f)
      + if f.None? || log[n].0 == f.value then Charge(env, log[n].1, env.ingest(n)) else 0.0
  }

  /** The logged attempts for one file from call number `first` on. */
  function Picked(log: seq<(nat, nat)>, first: nat, f: nat): seq<(nat, nat)> {
    if |log| <= first then []
    else
      var n := |log| - 1;
      Picked(log[..n], first, f) + if log[n].0 == f then [log[n]] else []
  }

  /** (f, 0), ..., (f, n - 1). */
  function FirstTries(f: nat, n: nat): seq<(nat, nat)> {
    if n == 0 then [] else FirstTries(f, n - 1) + [(f, n - 1)]
  }

  lemma {:induction false} AttemptsSnoc(f: nat, first: nat, last: nat)
    requires first <= last + 1
    ensures Attempts(f, first, last + 1) == Attempts(f, first, last) + [(f, last + 1)]
    decreases last + 1 - first
  {
    if first == last + 1 {
      assert Attempts(f, last + 2, last + 1) == [];
    } else {
      AttemptsSnoc(f, first + 1, last);
    }
  }

  lemma {:induction false} FirstTriesAre(f: nat, last: nat)
    ensures FirstTries(f, last + 1) == Attempts(f, 0, last)
  {
    if last == 0 {
      assert FirstTries(f, 0) == [] && Attempts(f, 1, 0) == [];
    } else {
      FirstTriesAre(f, last - 1);
      AttemptsSnoc(f, 0, last - 1);
    }
  }

  /** Every call for the file failed. */
  ghost predicate FailsFor(env: Env, log: seq<(nat, nat)>, first: nat, f: nat) {
    forall i :: first <= i < |log| && log[i].0 == f ==> env.ingest(i).Error?
  }

  /** A round makes at most one call, logs it, and sleeps what it charges. */
  ghost predicate LogStep(env: Env, a: World, b: World) {
    if b.calls == a.calls then b.attempts == a.attempts && b.slept == a.slept
    else
      && b.calls == a.calls + 1 && |b.attempts| == |a.attempts| + 1 && b.attempts[..|a.attempts|] == a.attempts
      && b.slept == a.slept + Charge(env, b.attempts[|a.attempts|].1, env.ingest(a.calls))
  }

  lemma ProcessLogs(env: Env, w: World, job: Job)
    requires !env.autoProcess
    ensures LogStep(env, w, Process(env, w, job))
    ensures Begin(w.db, job, env.clock(w.ticks)).1 ==>
              Process(env, w, job).attempts == w.attempts + [(job.fileId, job.attempt)]
  {
    hide Begin, Finalize, Requeue, Enqueue, Delay;
    var (db1, proceed) := Begin(w.db, job, env.clock(w.ticks));
    if proceed {
      var outcome := env.ingest(w.calls);
      var w2 := w.(db := Finalize(db1, job, outcome, env.clock(w.ticks + 1)), ticks := w.ticks + 2,
                   calls := w.calls + 1, attempts := w.attempts + [(job.fileId, job.attempt)]);
      assert w2.attempts[..|w.attempts|] == w.attempts;
      if outcome.Error? {
        assert Process(env, w, job) == HandleFailure(env, w2, job);
        FailureLogs(env, w2, job);
      }
    }
  }

  lemma FailureLogs(env: Env, w: World, job: Job)
    requires !env.autoProcess
    ensures var end := HandleFailure(env, w, job);
      && end.attempts == w.attempts && end.calls == w.calls
      && end.slept == w.slept + if job.attempt + 1 <= env.maxRetries then Delay(env, job.attempt + 1) else 0.0
  {
    hide Requeue, Enqueue, Delay;
  }

  /** What a round logs, when the world's log is as long as its calls. */
  lemma RoundLogs(env: Env, w: World, id: nat)
    requires !env.autoProcess && |w.attempts| == w.calls
    ensures var end := AfterRound(env, w, id); LogStep(env, w, end) && |end.attempts| == end.calls
  {
    if id in w.db.jobs {
      var (db1, job) := Claim(w.db, id, w.db.jobs[id].status, env.clock(w.ticks));
      hide Claim, Process, Charge;
      if job.Some? { ProcessLogs(env, w.(db := db1, ticks := w.ticks + 1), job.value); }
    }
  }

  /** Over any rounds, for any number of files, the time slept is the sum of the backoffs of
      the failed calls. */
  lemma {:induction false} SleptIsCharged(env: Env, w: World, ids: seq<nat>)
    requires !env.autoProcess && |w.attempts| == w.calls
    ensures var end := AfterRounds(env, w, ids);
      && |end.attempts| == end.calls && w.calls <= end.calls
      && end.slept == w.slept + Charged(env, end.attempts, w.calls, None)
  {
    if ids != [] {
      var n := |ids| - 1;
      SleptIsCharged(env, w, ids[..n]);
      RoundLogs(env, AfterRounds(env, w, ids[..n]), ids[n]);
      hide AfterRound, Charge;
    }
  }

  // -------------------------------------------------------------- rows of the file

  predicate Names(db: Db, j: nat, f: nat) {
    j in db.jobs && db.jobs[j].payload.fileId == Some(f)
  }

  /** From `a` to `b` nothing of the file changed: not its row, not its jobs. */
  ghost predicate Untouched(a: Db, b: Db, f: nat) {
    && (RowIds(a) ==> RowIds(b))
    && (f in a.files ==> f in b.files && b.files[f] == a.files[f])
    && (forall j :: Names(b, j, f) <==> Names(a, j, f))
    && (forall j :: Names(a, j, f) ==> b.jobs[j] == a.jobs[j])
  }

  lemma BeginElsewhere(db: Db, job: Job, now: Time, f: nat)
    requires job.fileId != f && !Names(db, job.rowId, f)
    ensures Untouched(db, Begin(db, job, now).0, f)
  {
  }

  lemma FinalizeElsewhere(db: Db, job: Job, outcome: Outcome, now: Time, f: nat)
    requires job.fileId != f && !Names(db, job.rowId, f)
    ensures Untouched(db, Finalize(db, job, outcome, now), f)
  {
  }

  lemma RetryElsewhere(db: Db, g: nat, attempt: nat, docId: Option<nat>, t0: Time, t1: Time, f: nat)
    requires RowIds(db) && g != f
    ensures Untouched(db, Enqueue(Requeue(db, g, attempt, t0), g, docId, attempt, t1), f)
  {
  }

  lemma UntouchedSteps(a: Db, b: Db, c: Db, f: nat)
    requires Untouched(a, b, f) && Untouched(b, c, f)
    ensures Untouched(a, c, f)
  {
  }

  lemma NamesKept(a: Db, b: Db, j: nat, f: nat)
    requires Untouched(a, b, f)
    ensures Names(b, j, f) <==> Names(a, j, f)
    ensures RowIds(a) ==> RowIds(b)
  {
  }

  lemma ProcessElsewhere(env: Env, w: World, job: Job, f: nat)
    requires !env.autoProcess && RowIds(w.db) && job.fileId != f && !Names(w.db, job.rowId, f)
    ensures Untouched(w.db, Process(env, w, job).db, f)
  {
    hide Begin, Finalize, HandleFailure, Untouched, Names;
    var (db1, proceed) := Begin(w.db, job, env.clock(w.ticks));
    BeginElsewhere(w.db, job, env.clock(w.ticks), f);
    if proceed {
      NamesKept(w.db, db1, job.rowId, f);
      var outcome := env.ingest(w.calls);
      var db2 := Finalize(db1, job, outcome, env.clock(w.ticks + 1));
      FinalizeElsewhere(db1, job, outcome, env.clock(w.ticks + 1), f);
      NamesKept(db1, db2, job.rowId, f);
      UntouchedSteps(w.db, db1, db2, f);
      if outcome.Error? {
        var w2 := World(db2, w.ticks + 2, w.calls + 1, w.slept, w.attempts + [(job.fileId, job.attempt)]);
        assert Process(env, w, job) == HandleFailure(env, w2, job);
        FailureElsewhere(env, w2, job, f);
        UntouchedSteps(w.db, db2, HandleFailure(env, w2, job).db, f);
      }
    }
  }

  lemma FailureElsewhere(env: Env, w: World, job: Job, f: nat)
    requires !env.autoProcess && RowIds(w.db) && job.fileId != f
    ensures Untouched(w.db, HandleFailure(env, w, job).db, f)
  {
    hide Requeue, Enqueue, Names, Delay;
    var a := job.attempt + 1;
    if a <= env.maxRetries && job.fileId in w.db.files {
      var docId := w.db.files[job.fileId].docId;
      var w1 := w.(db := Requeue(w.db, job.fileId, a, env.clock(w.ticks)), ticks := w.ticks + 1,
                   slept := w.slept + Delay(env, a));
      assert HandleFailure(env, w, job) == EnqueueJob(env, w1, job.fileId, docId, a);
      RetryElsewhere(w.db, job.fileId, a, docId, env.clock(w.ticks), env.clock(w.ticks + 1), f);
    }
  }

  lemma ClaimElsewhere(db: Db, id: nat, now: Time, f: nat)
    requires id in db.jobs && !Names(db, id, f)
    ensures var (db1, job) := Claim(db, id, db.jobs[id].status, now);
      && Untouched(db, db1, f) && !Names(db1, id, f)
      && (job.Some? ==> job.value.fileId != f && job.value.rowId == id)
  {
  }

  /** A round on a row that does not name the file. */
  lemma RoundElsewhere(env: Env, w: World, id: nat, f: nat)
    requires !env.autoProcess && RowIds(w.db) && |w.attempts| == w.calls && !Names(w.db, id, f)
    ensures var end := AfterRound(env, w, id);
      && Untouched(w.db, end.db, f)
      && (end.calls > w.calls ==> |end.attempts| == w.calls + 1 && end.attempts[w.calls].0 != f)
  {
    if id in w.db.jobs {
      hide Claim, Process, Names, RowIds, Begin, LogStep;
      var (db1, job) := Claim(w.db, id, w.db.jobs[id].status, env.clock(w.ticks));
      ClaimElsewhere(w.db, id, env.clock(w.ticks), f);
      if job.Some? {
        hide Untouched;
        NamesKept(w.db, db1, id, f);
        var w1 := w.(db := db1, ticks := w.ticks + 1);
        ProcessElsewhere(env, w1, job.value, f);
        UntouchedSteps(w.db, db1, Process(env, w1, job.value).db, f);
        ProcessLogs(env, w1, job.value);
        if !Begin(w1.db, job.value, env.clock(w1.ticks)).1 { NoCall(env, w1, job.value); }
      }
    } else {
      SameTables(w.db, f);
    }
  }

  lemma SameTables(db: Db, f: nat)
    ensures Untouched(db, db, f)
  {
  }

  lemma NoCall(env: Env, w: World, job: Job)
    requires !Begin(w.db, job, env.clock(w.ticks)).1
    ensures Process(env, w, job).calls == w.calls
  {
  }

  // --------------------------------------------------------------- the file's own rounds

  /** A row as an enqueue leaves it. */
  predicate FreshRow(db: Db, j: nat, f: nat, attempt: nat) {
    && Names(db, j, f) && db.jobs[j].status == Queued && db.jobs[j].jobType == INGEST
    && db.jobs[j].attempt == attempt && db.jobs[j].payload.attempt == Some(attempt)
  }

  predicate QueuedFile(db: Db, f: nat) {
    f in db.files && db.files[f].status == Queued
  }

  /** The row failed; with attempts left the file is QUEUED again with a new row. */
  ghost predicate FailedAttempt(env: Env, a: Db, b: Db, q: nat, f: nat, attempt: nat) {
    && RowIds(b) && FailedRow(b, q, f, attempt)
    && if attempt + 1 <= env.maxRetries
       then RowsAdded(a, b, q, 1) && FreshRow(b, a.nextJob, f, attempt + 1) && QueuedFile(b, f)
       else RowsAdded(a, b, q, 0) && FailedFile(b, f, attempt + 1)
  }

  lemma ClaimFresh(db: Db, q: nat, f: nat, attempt: nat, now: Time)
    requires FreshRow(db, q, f, attempt) && QueuedFile(db, f) && RowIds(db)
    ensures var (db1, job) := Claim(db, q, db.jobs[q].status, now);
      && job.Some? && job.value.rowId == q && job.value.fileId == f && job.value.attempt == attempt
      && OwnRow(db1, job.value) && RowIds(db1) && RowsAdded(db, db1, q, 0)
  {
  }

  lemma RetryFresh(db: Db, f: nat, docId: Option<nat>, attempt: nat, t0: Time, t1: Time, q: nat)
    requires RowIds(db) && f in db.files && q in db.jobs
    ensures var db1 := RetryOnce(db, f, docId, attempt, t0, t1);
      && RowIds(db1) && RowsAdded(db, db1, q, 1) && db1.jobs[q] == db.jobs[q]
      && FreshRow(db1, db.nextJob, f, attempt) && QueuedFile(db1, f)
  {
  }

  lemma RowsAddedSteps(a: Db, b: Db, c: Db, q: nat, n: nat)
    requires RowsAdded(a, b, q, 0) && RowsAdded(b, c, q, n)
    ensures RowsAdded(a, c, q, n)
    ensures RowIds(a) ==> RowIds(b)
  {
  }

  lemma FailureInQueue(env: Env, w: World, job: Job)
    requires !env.autoProcess && RowIds(w.db) && FailedRow(w.db, job.rowId, job.fileId, job.attempt)
    requires FailedFile(w.db, job.fileId, job.attempt + 1)
    ensures FailedAttempt(env, w.db, HandleFailure(env, w, job).db, job.rowId, job.fileId, job.attempt)
  {
    var f, a := job.fileId, job.attempt + 1;
    hide Requeue, Enqueue, Delay, RowsAdded, FreshRow, QueuedFile;
    if a <= env.maxRetries {
      var docId := w.db.files[f].docId;
      var w1 := w.(db := Requeue(w.db, f, a, env.clock(w.ticks)), ticks := w.ticks + 1,
                   slept := w.slept + Delay(env, a));
      assert HandleFailure(env, w, job) == EnqueueJob(env, w1, f, docId, a);
      RetryFresh(w.db, f, docId, a, env.clock(w.ticks), env.clock(w.ticks + 1), job.rowId);
    } else {
      SameRows(w.db, job.rowId);
    }
  }

  lemma SameRows(db: Db, q: nat)
    ensures RowsAdded(db, db, q, 0)
  {
  }

  /** A round on the file's own row: one attempt, and when it fails, one FAILED row. */
  lemma RoundOnOwn(env: Env, w: World, q: nat, f: nat, attempt: nat)
    requires !env.autoProcess && RowIds(w.db) && FreshRow(w.db, q, f, attempt) && QueuedFile(w.db, f)
    ensures AfterRound(env, w, q).attempts == w.attempts + [(f, attempt)]
    ensures env.ingest(w.calls).Error? ==> FailedAttempt(env, w.db, AfterRound(env, w, q).db, q, f, attempt)
  {
    var now := env.clock(w.ticks);
    ClaimFresh(w.db, q, f, attempt, now);
    var (db1, job) := Claim(w.db, q, w.db.jobs[q].status, now);
    var w1 := w.(db := db1, ticks := w.ticks + 1);
    assert AfterRound(env, w, q) == Process(env, w1, job.value);
    OwnProceeds(w1.db, job.value, env.clock(w1.ticks));
    ProcessLogs(env, w1, job.value);
    if env.ingest(w.calls).Error? {
      hide AfterRound, Claim, Process, OwnRow, FreshRow, QueuedFile, RowIds;
      FailureUnfolds(env, w1, job.value);
      hide *;
      var db2 := FailOnce(db1, job.value, env.ingest(w.calls), env.clock(w1.ticks), env.clock(w1.ticks + 1));
      RowsAddedSteps(w.db, db1, db2, q, 0);
      RowsAddedSteps(db1, db2, db2, q, 0);
      var w2 := World(db2, w1.ticks + 2, w.calls + 1, w.slept, w.attempts + [(f, attempt)]);
      FailureInQueue(env, w2, job.value);
      FailedAttemptFrom(env, w.db, db2, HandleFailure(env, w2, job.value).db, q, f, attempt);
    }
  }

  lemma OwnProceeds(db: Db, job: Job, now: Time)
    requires OwnRow(db, job)
    ensures Begin(db, job, now).1
  {
  }

  lemma FailedAttemptFrom(env: Env, a: Db, b: Db, c: Db, q: nat, f: nat, attempt: nat)
    requires RowsAdded(a, b, q, 0) && FailedAttempt(env, b, c, q, f, attempt)
    ensures FailedAttempt(env, a, c, q, f, attempt)
  {
    if attempt + 1 <= env.maxRetries { RowsAddedSteps(a, b, c, q, 1); } else { RowsAddedSteps(a, b, c, q, 0); }
    hide FailedRow, FreshRow, QueuedFile, FailedFile, RowIds;
  }

  // ------------------------------------------------------------------ the whole story

  /** The file's rows: those of `base`, finished before; one FAILED row for each attempt so
      far; and the next attempt's, if there is one. */
  ghost predicate RowTrail(env: Env, db: Db, f: nat, base: set<nat>, rows: seq<nat>, next: Option<nat>) {
    && RowIds(db)
    && (forall j :: j in base ==> Names(db, j, f) && !Unfinished(db.jobs[j]))
    && (forall a :: 0 <= a < |rows| ==> FailedRow(db, rows[a], f, a))
    && (forall j :: Names(db, j, f) <==> j in base || j in rows || next == Some(j))
    && (if next.Some? then |rows| <= env.maxRetries && FreshRow(db, next.value, f, |rows|) && QueuedFile(db, f)
        else |rows| == env.maxRetries + 1 && FailedFile(db, f, env.maxRetries + 1))
  }

  /** The calls for the file so far are its attempts in order, and their backoffs add up. */
  ghost predicate LogTrail(env: Env, w: World, first: nat, f: nat, tries: nat) {
    && |w.attempts| == w.calls && first <= w.calls
    && Picked(w.attempts, first, f) == FirstTries(f, tries)
    && Charged(env, w.attempts, first, Some(f))
         == Backoffs(env, 0, if tries <= env.maxRetries then tries else env.maxRetries)
  }

  lemma RowTrailUntouched(env: Env, a: Db, b: Db, f: nat, base: set<nat>, rows: seq<nat>, next: Option<nat>)
    requires RowTrail(env, a, f, base, rows, next) && Untouched(a, b, f)
    ensures RowTrail(env, b, f, base, rows, next)
  {
    forall a' | 0 <= a' < |rows| ensures FailedRow(b, rows[a'], f, a') {
      assert Names(a, rows[a'], f);
    }
  }

  lemma RowTrailFailed(env: Env, a: Db, b: Db, f: nat, base: set<nat>, rows: seq<nat>, q: nat) returns (next: Option<nat>)
    requires RowTrail(env, a, f, base, rows, Some(q)) && FailedAttempt(env, a, b, q, f, |rows|)
    ensures RowTrail(env, b, f, base, rows + [q], next)
  {
    next := if |rows| + 1 <= env.maxRetries then Some(a.nextJob) else None;
    assert q !in base;
    forall i | 0 <= i < |rows| + 1 ensures FailedRow(b, (rows + [q])[i], f, i) {
      if i < |rows| { assert FailedRow(a, rows[i], f, i); }
    }
    forall j ensures Names(b, j, f) <==> j in base || j in rows + [q] || next == Some(j) {
      assert Names(a, j, f) <==> j in base || j in rows || j == q;
      assert j in rows + [q] <==> j in rows || j == q;
    }
  }

  lemma OneMoreDelay(env: Env, n: nat)
    ensures Backoffs(env, 0, n) + Delay(env, n + 1) == Backoffs(env, 0, n + 1)
  {
    var x, y := (Pow2(n) - 1) as real, Pow2(n) as real;
    assert x + y == (Pow2(n + 1) - 1) as real;
    assert env.backoff * x + env.backoff * y == env.backoff * (x + y);
  }

  lemma LogTrailElsewhere(env: Env, a: World, b: World, first: nat, f: nat, tries: nat)
    requires LogTrail(env, a, first, f, tries) && LogStep(env, a, b) && |b.attempts| == b.calls
    requires b.calls > a.calls ==> b.attempts[a.calls].0 != f
    ensures LogTrail(env, b, first, f, tries)
  {
    hide Charge, Backoffs;
  }

  lemma LogTrailOwn(env: Env, a: World, b: World, first: nat, f: nat, tries: nat)
    requires LogTrail(env, a, first, f, tries) && LogStep(env, a, b) && |b.attempts| == b.calls
    requires b.attempts == a.attempts + [(f, tries)] && env.ingest(a.calls).Error? && tries <= env.maxRetries
    ensures LogTrail(env, b, first, f, tries + 1)
  {
    OneMoreDelay(env, tries);
    hide Backoffs, Delay;
  }

  /** Work for the file enters the queue: its row is the only unfinished one that names it. */
  ghost predicate Entered(db: Db, f: nat, q: nat) {
    && RowIds(db) && FreshRow(db, q, f, 0) && QueuedFile(db, f)
    && forall j :: Names(db, j, f) && j != q ==> !Unfinished(db.jobs[j])
  }

  lemma DocKeepsJobs(db: Db, key: Key, mime: Option<string>)
    ensures var db1 := RegisterDoc(db, key, mime).0; db1.jobs == db.jobs && db1.nextJob == db.nextJob
  {
  }

  lemma FileKeepsJobs(db: Db, key: Key, upload: SourceFile, d: nat, now: Time)
    ensures var (db1, f, queued) := RegisterFile(db, key, upload, d, now);
      && db1.jobs == db.jobs && db1.nextJob == db.nextJob && (queued ==> QueuedFile(db1, f))
  {
  }

  lemma EnqueueEnters(db: Db, f: nat, docId: Option<nat>, now: Time)
    requires RowIds(db) && QueuedFile(db, f) && forall j :: Names(db, j, f) ==> !Unfinished(db.jobs[j])
    ensures Entered(Enqueue(db, f, docId, 0, now), f, db.nextJob)
  {
  }

  /** An upload that queues a job for a file with no unfinished row. */
  lemma UploadEnters(db: Db, key: Key, upload: SourceFile, mime: Option<string>, now: Time)
    requires RowIds(db)
    ensures var (db1, d) := RegisterDoc(db, key, mime);
      var (db2, f, queued) := RegisterFile(db1, key, upload, d, now);
      queued && (forall j :: Names(db, j, f) ==> !Unfinished(db.jobs[j])) ==>
        Entered(Register(db, key, upload, mime, now), f, db.nextJob)
  {
    hide RegisterDoc, RegisterFile, Enqueue, QueuedFile, Entered;
    var (db1, d) := RegisterDoc(db, key, mime);
    DocKeepsJobs(db, key, mime);
    var (db2, f, queued) := RegisterFile(db1, key, upload, d, now);
    FileKeepsJobs(db1, key, upload, d, now);
    if queued && forall j :: Names(db, j, f) ==> !Unfinished(db.jobs[j]) {
      EnqueueEnters(db2, f, Some(d), now);
    }
  }

  /** One round keeps both trails. */
  lemma RoundKeepsTrail(env: Env, w: World, id: nat, first: nat, f: nat, base: set<nat>, rows: seq<nat>, next: Option<nat>)
    returns (rows': seq<nat>, next': Option<nat>)
    requires !env.autoProcess && RoundOk(env, w, id)
    requires RowTrail(env, w.db, f, base, rows, next) && LogTrail(env, w, first, f, |rows|)
    requires FailsFor(env, AfterRound(env, w, id).attempts, first, f)
    ensures var end := AfterRound(env, w, id);
      RowTrail(env, end.db, f, base, rows', next') && LogTrail(env, end, first, f, |rows'|)
  {
    hide *;
    var end := AfterRound(env, w, id);
    TrailOpens(env, w, first, f, base, rows, next);
    RoundLogs(env, w, id);
    if !Names(w.db, id, f) {
      RoundElsewhere(env, w, id, f);
      RowTrailUntouched(env, w.db, end.db, f, base, rows, next);
      LogTrailElsewhere(env, w, end, first, f, |rows|);
      rows', next' := rows, next;
    } else {
      NamedRoundIsNext(env, w, id, f, base, rows, next);
      RoundOnOwn(env, w, id, f, |rows|);
      LastCallFailed(env, w, end, first, f, |rows|);
      next' := RowTrailFailed(env, w.db, end.db, f, base, rows, id);
      rows' := rows + [id];
      LogTrailOwn(env, w, end, first, f, |rows|);
    }
  }

  lemma TrailOpens(env: Env, w: World, first: nat, f: nat, base: set<nat>, rows: seq<nat>, next: Option<nat>)
    requires RowTrail(env, w.db, f, base, rows, next) && LogTrail(env, w, first, f, |rows|)
    ensures RowIds(w.db) && |w.attempts| == w.calls && first <= w.calls
    ensures next.Some? ==> FreshRow(w.db, next.value, f, |rows|) && QueuedFile(w.db, f) && |rows| <= env.maxRetries
  {
    hide RowIds, FreshRow, QueuedFile, FailedFile, FailedRow, Picked, Charged, Backoffs;
  }

  lemma LastCallFailed(env: Env, w: World, end: World, first: nat, f: nat, attempt: nat)
    requires |w.attempts| == w.calls && first <= w.calls && end.attempts == w.attempts + [(f, attempt)]
    requires FailsFor(env, end.attempts, first, f)
    ensures env.ingest(w.calls).Error?
  {
    assert end.attempts[w.calls].0 == f;
  }

  /** A claimed row that names the file is the one of its next attempt: all others finished. */
  lemma NamedRoundIsNext(env: Env, w: World, id: nat, f: nat, base: set<nat>, rows: seq<nat>, next: Option<nat>)
    requires RoundOk(env, w, id) && Names(w.db, id, f) && RowTrail(env, w.db, f, base, rows, next)
    ensures next == Some(id)
  {
    hide Claim;
    assert Eligible(w.db.jobs[id], env.clock(w.ticks) - env.timeout);
    forall a | 0 <= a < |rows| ensures rows[a] != id {
      assert FailedRow(w.db, rows[a], f, a);
    }
  }

  lemma FailsForShorter(env: Env, a: World, b: World, first: nat, f: nat)
    requires LogStep(env, a, b) && FailsFor(env, b.attempts, first, f)
    ensures FailsFor(env, a.attempts, first, f)
  {
    forall i | first <= i < |a.attempts| && a.attempts[i].0 == f ensures env.ingest(i).Error? {
      assert b.attempts[i] == b.attempts[..|a.attempts|][i];
    }
  }

  /** At every point of any rounds whose calls for the file have all failed. */
  lemma {:induction false} TrailKept(env: Env, w: World, f: nat, q: nat, ids: seq<nat>)
    returns (base: set<nat>, rows: seq<nat>, next: Option<nat>)
    requires !env.autoProcess && |w.attempts| == w.calls && Entered(w.db, f, q) && RoundsOk(env, w, ids)
    requires FailsFor(env, AfterRounds(env, w, ids).attempts, w.calls, f)
    ensures base == (set j | j in w.db.jobs && Names(w.db, j, f) && j != q)
    ensures var end := AfterRounds(env, w, ids);
      RowTrail(env, end.db, f, base, rows, next) && LogTrail(env, end, w.calls, f, |rows|)
  {
    base := set j | j in w.db.jobs && Names(w.db, j, f) && j != q;
    if ids == [] {
      rows, next := [], Some(q);
      NoDelay(env, 0);
    } else {
      var n := |ids| - 1;
      var mid := AfterRounds(env, w, ids[..n]);
      SleptIsCharged(env, w, ids[..n]);
      RoundLogs(env, mid, ids[n]);
      hide RoundOk, AfterRound, RowTrail, LogTrail, FailsFor, LogStep, Entered, Names;
      FailsForShorter(env, mid, AfterRound(env, mid, ids[n]), w.calls, f);
      base, rows, next := TrailKept(env, w, f, q, ids[..n]);
      rows, next := RoundKeepsTrail(env, mid, ids[n], w.calls, f, base, rows, next);
    }
  }

  /** A queue with nothing to claim for the file holds no next attempt. */
  lemma TrailEnds(env: Env, db: Db, f: nat, base: set<nat>, rows: seq<nat>, next: Option<nat>, cutoff: Time)
    requires RowTrail(env, db, f, base, rows, next)
    requires forall j :: Names(db, j, f) ==> !Eligible(db.jobs[j], cutoff)
    ensures |rows| == env.maxRetries + 1 && FailedFile(db, f, env.maxRetries + 1)
    ensures forall a :: 0 <= a < |rows| ==> FailedRow(db, rows[a], f, a)
    ensures forall j :: Names(db, j, f) <==> j in base || j in rows
  {
    hide FailedRow, FailedFile;
    assert next.Some? ==> Names(db, next.value, f) && Eligible(db.jobs[next.value], cutoff);
  }

  lemma LogTrailMeans(env: Env, w: World, first: nat, f: nat)
    requires LogTrail(env, w, first, f, env.maxRetries + 1)
    ensures Picked(w.attempts, first, f) == Attempts(f, 0, env.maxRetries)
    ensures Charged(env, w.attempts, first, Some(f)) == env.backoff * (Pow2(env.maxRetries) - 1) as real
  {
    FirstTriesAre(f, env.maxRetries);
    NoDelay(env, env.maxRetries);
    hide Backoffs;
  }

  /** Main result: a file whose every call fails, once the queue has nothing more for it: it
      was tried `maxRetries + 1` times, in order, whatever else the rounds in between served;
      each attempt left one FAILED row; the file is FAILED; and the backoffs slept for it add
      up to `backoff * (2^maxRetries - 1)`. */
  lemma QueueGivesUp(env: Env, w: World, f: nat, q: nat, ids: seq<nat>, cutoff: Time) returns (rows: seq<nat>)
    requires !env.autoProcess && |w.attempts| == w.calls && Entered(w.db, f, q) && RoundsOk(env, w, ids)
    requires FailsFor(env, AfterRounds(env, w, ids).attempts, w.calls, f)
    requires var end := AfterRounds(env, w, ids).db; forall j :: Names(end, j, f) ==> !Eligible(end.jobs[j], cutoff)
    ensures var end := AfterRounds(env, w, ids);
      && Picked(end.attempts, w.calls, f) == Attempts(f, 0, env.maxRetries)
      && |rows| == env.maxRetries + 1 && (forall a :: 0 <= a < |rows| ==> FailedRow(end.db, rows[a], f, a))
      && (forall j :: Names(end.db, j, f) <==> (Names(w.db, j, f) && j != q) || j in rows)
      && FailedFile(end.db, f, env.maxRetries + 1)
      && Charged(env, end.attempts, w.calls, Some(f)) == env.backoff * (Pow2(env.maxRetries) - 1) as real
  {
    hide Entered, RoundsOk, AfterRounds, FailsFor, FailedRow, FailedFile, Attempts, Picked, Charged, Eligible;
    var base, next;
    base, rows, next := TrailKept(env, w, f, q, ids);
    var end := AfterRounds(env, w, ids);
    TrailEnds(env, end.db, f, base, rows, next, cutoff);
    hide RowTrail, LogTrail;
    LogTrailMeans(env, end, w.calls, f);
  }
}
