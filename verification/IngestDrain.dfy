/** Why `drain` stops, and what is left when it does. */
module IngestDrain {
  import opened Options
  import opened IngestRows
  import opened IngestWorld
  import opened IngestLease

  // ------------------------------------------------------ the head of the queue

  /** When anything is eligible, ORDER BY ... LIMIT 1 returns a row. */
  lemma HeadExists(db: Db, staleBefore: Time)
    requires exists j :: j in db.jobs && Eligible(db.jobs[j], staleBefore)
    ensures exists id :: IsHead(db, id, staleBefore)
  {
    var ids := set j | j in db.jobs && Eligible(db.jobs[j], staleBefore);
    var j :| j in db.jobs && Eligible(db.jobs[j], staleBefore);
    assert j in ids;
    var id := LeastOf(db, ids);
    assert IsHead(db, id, staleBefore);
  }

  lemma {:induction false} LeastOf(db: Db, ids: set<nat>) returns (id: nat)
    requires ids != {} && ids <= db.jobs.Keys
    ensures id in ids && forall other :: other in ids ==> NotAfter(db.jobs[id], db.jobs[other])
    decreases |ids|
  {
    var j :| j in ids;
    if ids == {j} {
      id := j;
    } else {
      var rest := ids - {j};
      assert ids == rest + {j};
      var least := LeastOf(db, rest);
      id := if NotAfter(db.jobs[j], db.jobs[least]) then j else least;
      assert forall other :: other in ids ==> other == j || other in rest;
    }
  }

  /** The order puts every queued row before every stale one, then the higher priority,
      then the older row. */
  lemma HeadOrder(db: Db, id: nat, other: nat, staleBefore: Time)
    requires IsHead(db, id, staleBefore) && other in db.jobs && Eligible(db.jobs[other], staleBefore)
    ensures db.jobs[other].status == Queued ==> db.jobs[id].status == Queued
    ensures db.jobs[other].status == db.jobs[id].status ==> db.jobs[id].priority >= db.jobs[other].priority
    ensures db.jobs[other].status == db.jobs[id].status && db.jobs[id].priority == db.jobs[other].priority ==>
              db.jobs[id].createdAt <= db.jobs[other].createdAt
  {
    assert NotAfter(db.jobs[id], db.jobs[other]);
  }

  // ------------------------------------------------------------------- measure

  /** Rows that count as work: with a cutoff those eligible at it, without one all that are
      unfinished, stale or not. */
  predicate Pending(row: JobRow, bound: Option<Time>) {
    if bound.Some? then Eligible(row, bound.value) else Unfinished(row)
  }

  function AttemptOf(row: JobRow): nat {
    if row.status == Processing || row.payload.attempt.None? then row.attempt else row.payload.attempt.value
  }

  function Weight(env: Env, row: JobRow): nat {
    if AttemptOf(row) > env.maxRetries then 1 else env.maxRetries + 1 - AttemptOf(row)
  }

  function Units(env: Env, db: Db, bound: Option<Time>, skip: Option<nat>, j: nat): nat {
    if skip != Some(j) && j in db.jobs && Pending(db.jobs[j], bound) then Weight(env, db.jobs[j]) else 0
  }

  /** The total weight of pending rows below id `n`, not counting row `skip`. */
  function Work(env: Env, db: Db, bound: Option<Time>, skip: Option<nat>, n: nat): nat {
    if n == 0 then 0 else Work(env, db, bound, skip, n - 1) + Units(env, db, bound, skip, n - 1)
  }

  function TotalWork(env: Env, db: Db, bound: Option<Time>): nat {
    Work(env, db, bound, None, db.nextJob)
  }

  /** What a job may still put back: the weight of its possible retry. */
  function RetryWeight(env: Env, attempt: nat): nat {
    if attempt < env.maxRetries then env.maxRetries - attempt else 0
  }

  lemma {:induction false} WorkLe(env: Env, a: Db, skipA: Option<nat>, b: Db, skipB: Option<nat>, bound: Option<Time>, n: nat)
    requires forall j :: 0 <= j < n ==> Units(env, a, bound, skipA, j) <= Units(env, b, bound, skipB, j)
    ensures Work(env, a, bound, skipA, n) <= Work(env, b, bound, skipB, n)
  {
    if n > 0 { WorkLe(env, a, skipA, b, skipB, bound, n - 1); }
  }

  lemma {:induction false} WorkSplit(env: Env, db: Db, bound: Option<Time>, id: nat, n: nat)
    ensures Work(env, db, bound, None, n) ==
            Work(env, db, bound, Some(id), n) + (if id < n then Units(env, db, bound, None, id) else 0)
  {
    if n > 0 { WorkSplit(env, db, bound, id, n - 1); }
  }

  /** The rows other than `own` are the same and `own` is no longer pending. */
  ghost predicate OnlyOwn(a: Db, b: Db, own: nat, bound: Option<Time>) {
    && b.nextJob == a.nextJob
    && (forall j :: j in b.jobs && j != own ==> j in a.jobs && b.jobs[j] == a.jobs[j])
    && (own in b.jobs ==> own in a.jobs && !Pending(b.jobs[own], bound))
  }

  lemma OwnWork(env: Env, a: Db, b: Db, own: nat, bound: Option<Time>)
    requires OnlyOwn(a, b, own, bound)
    ensures TotalWork(env, b, bound) <= Work(env, a, bound, Some(own), a.nextJob)
  {
    WorkLe(env, b, None, a, Some(own), bound, a.nextJob);
  }

  lemma EnqueueWork(env: Env, db: Db, f: nat, docId: Option<nat>, attempt: nat, now: Time, bound: Option<Time>)
    requires RowIds(db)
    ensures var db' := Enqueue(db, f, docId, attempt, now);
      && RowIds(db')
      && Work(env, db', bound, Some(db.nextJob), db'.nextJob) <= TotalWork(env, db, bound)
      && (attempt <= env.maxRetries ==>
            TotalWork(env, db', bound) <= TotalWork(env, db, bound) + env.maxRetries + 1 - attempt)
  {
    var db' := Enqueue(db, f, docId, attempt, now);
    WorkLe(env, db', Some(db.nextJob), db, None, bound, db.nextJob);
    WorkSplit(env, db', bound, db.nextJob, db'.nextJob);
  }

  /** Before `_process`, the job's own row is queued or freshly written. */
  predicate Taken(db: Db, rowId: nat, bound: Time) {
    rowId in db.jobs ==> db.jobs[rowId].status == Queued || !Eligible(db.jobs[rowId], bound)
  }

  lemma BeginOwn(db: Db, job: Job, now: Time, bound: Time)
    requires Taken(db, job.rowId, bound) && now > bound
    ensures OnlyOwn(db, Begin(db, job, now).0, job.rowId, Some(bound))
  {
  }

  lemma FinalizeOwn(db: Db, job: Job, outcome: Outcome, now: Time, bound: Time)
    ensures OnlyOwn(db, Finalize(db, job, outcome, now), job.rowId, Some(bound))
  {
  }

  /** Processing a job removes its row from the work and puts back at most one lighter retry,
      in database mode and with immediate processing alike. */
  lemma {:induction false} ProcessWork(env: Env, w: World, job: Job, bound: Time)
    requires RowIds(w.db) && Taken(w.db, job.rowId, bound)
    requires forall i :: w.ticks <= i ==> env.clock(i) > bound
    ensures var end := Process(env, w, job).db;
      && RowIds(end) && w.ticks <= Process(env, w, job).ticks
      && TotalWork(env, end, Some(bound)) <= Work(env, w.db, Some(bound), Some(job.rowId), w.db.nextJob) + RetryWeight(env, job.attempt)
    decreases Left(env, job.attempt), 1
  {
    hide Begin, Finalize, TotalWork, Work, Taken, HandleFailure;
    var (db1, proceed) := Begin(w.db, job, env.clock(w.ticks));
    BeginOwn(w.db, job, env.clock(w.ticks), bound);
    OwnWork(env, w.db, db1, job.rowId, Some(bound));
    if proceed {
      var outcome := env.ingest(w.calls);
      var db2 := Finalize(db1, job, outcome, env.clock(w.ticks + 1));
      FinalizeOwn(db1, job, outcome, env.clock(w.ticks + 1), bound);
      assert OnlyOwn(w.db, db2, job.rowId, Some(bound));
      OwnWork(env, w.db, db2, job.rowId, Some(bound));
      var w2 := World(db2, w.ticks + 2, w.calls + 1, w.slept, w.attempts + [(job.fileId, job.attempt)]);
      if outcome.Error? {
        assert Process(env, w, job) == HandleFailure(env, w2, job);
        FailureWork(env, w2, job, bound);
      }
    }
  }

  lemma {:induction false} FailureWork(env: Env, w: World, job: Job, bound: Time)
    requires RowIds(w.db)
    requires forall i :: w.ticks <= i ==> env.clock(i) > bound
    ensures var end := HandleFailure(env, w, job).db;
      && RowIds(end) && w.ticks <= HandleFailure(env, w, job).ticks
      && TotalWork(env, end, Some(bound)) <= TotalWork(env, w.db, Some(bound)) + RetryWeight(env, job.attempt)
    decreases Left(env, job.attempt), 0
  {
    hide Enqueue, Work, Process, Delay;
    var a := job.attempt + 1;
    if a <= env.maxRetries && job.fileId in w.db.files {
      var w1 := w.(db := Requeue(w.db, job.fileId, a, env.clock(w.ticks)), ticks := w.ticks + 1,
                   slept := w.slept + Delay(env, a));
      WorkLe(env, w1.db, None, w.db, None, Some(bound), w.db.nextJob);
      var docId := w.db.files[job.fileId].docId;
      assert HandleFailure(env, w, job) == EnqueueJob(env, w1, job.fileId, docId, a);
      EnqueueWork(env, w1.db, job.fileId, docId, a, env.clock(w1.ticks), Some(bound));
      if env.autoProcess {
        var w2 := w1.(db := Enqueue(w1.db, job.fileId, docId, a, env.clock(w1.ticks)), ticks := w1.ticks + 1);
        EnqueuedTaken(w1.db, job.fileId, docId, a, env.clock(w1.ticks), bound);
        ProcessWork(env, w2, Job(w1.db.nextJob, job.fileId, docId, a), bound);
      }
    }
  }

  lemma EnqueuedTaken(db: Db, f: nat, docId: Option<nat>, attempt: nat, now: Time, bound: Time)
    ensures var db' := Enqueue(db, f, docId, attempt, now);
      Taken(db', db.nextJob, bound) && db'.nextJob == db.nextJob + 1
  {
  }

  /** Each round of `drain` lowers the measure: sum over pending rows of
      max(1, maxRetries + 1 - attempt). */
  lemma RoundShrinksWork(env: Env, w: World, id: nat, bound: Time)
    requires RowIds(w.db) && IsHead(w.db, id, env.clock(w.ticks) - env.timeout)
    requires env.clock(w.ticks) - env.timeout <= bound
    requires forall i :: w.ticks <= i ==> env.clock(i) > bound
    ensures var (db1, job) := Claim(w.db, id, w.db.jobs[id].status, env.clock(w.ticks));
      job.Some? ==>
        var end := Process(env, w.(db := db1, ticks := w.ticks + 1), job.value);
        && RowIds(end.db) && w.ticks < end.ticks
        && TotalWork(env, end.db, Some(bound)) < TotalWork(env, w.db, Some(bound))
  {
    var now := env.clock(w.ticks);
    var (db1, job) := Claim(w.db, id, w.db.jobs[id].status, now);
    if job.Some? {
      ClaimWork(env, w.db, id, now, bound);
      hide Claim, Process, Work, TotalWork, IsHead;
      ProcessWork(env, w.(db := db1, ticks := w.ticks + 1), job.value, bound);
    }
  }

  lemma ClaimWork(env: Env, db: Db, id: nat, now: Time, bound: Time)
    requires RowIds(db) && id in db.jobs && Eligible(db.jobs[id], bound) && now > bound
    ensures var (db1, job) := Claim(db, id, db.jobs[id].status, now);
      job.Some? ==>
        && RowIds(db1) && job.value.rowId == id && Taken(db1, id, bound)
        && Work(env, db1, Some(bound), Some(id), db1.nextJob) + RetryWeight(env, job.value.attempt) < TotalWork(env, db, Some(bound))
  {
    var (db1, job) := Claim(db, id, db.jobs[id].status, now);
    if job.Some? {
      WorkLe(env, db1, Some(id), db, Some(id), Some(bound), db.nextJob);
      WorkSplit(env, db, Some(bound), id, db.nextJob);
      assert Weight(env, db.jobs[id]) > RetryWeight(env, job.value.attempt);
    }
  }

  // ------------------------------------------------------------ usable payloads

  /** Every row names a file. */
  ghost predicate Usable(db: Db) {
    forall j :: j in db.jobs ==> db.jobs[j].payload.fileId.Some?
  }

  lemma ClaimUsable(db: Db, id: nat, observed: Status, now: Time)
    requires Usable(db)
    ensures Usable(Claim(db, id, observed, now).0)
  {
  }

  lemma CommitsUsable(db: Db, job: Job, outcome: Outcome, attempt: nat, now: Time)
    requires Usable(db)
    ensures Usable(Begin(db, job, now).0) && Usable(Finalize(db, job, outcome, now))
    ensures Usable(Requeue(db, job.fileId, attempt, now))
    ensures forall docId :: Usable(Enqueue(db, job.fileId, docId, attempt, now))
  {
  }

  /** Processing never makes a payload unusable. */
  lemma {:induction false} ProcessUsable(env: Env, w: World, job: Job)
    requires Usable(w.db)
    ensures Usable(Process(env, w, job).db)
    decreases Left(env, job.attempt), 1
  {
    hide Begin, Finalize, HandleFailure, Usable;
    var (db1, proceed) := Begin(w.db, job, env.clock(w.ticks));
    var outcome := env.ingest(w.calls);
    CommitsUsable(w.db, job, outcome, 0, env.clock(w.ticks));
    if proceed {
      CommitsUsable(db1, job, outcome, 0, env.clock(w.ticks + 1));
      if outcome.Error? {
        FailureUsable(env, World(Finalize(db1, job, outcome, env.clock(w.ticks + 1)), w.ticks + 2, w.calls + 1,
                                 w.slept, w.attempts + [(job.fileId, job.attempt)]), job);
      }
    }
  }

  lemma {:induction false} FailureUsable(env: Env, w: World, job: Job)
    requires Usable(w.db)
    ensures Usable(HandleFailure(env, w, job).db)
    decreases Left(env, job.attempt), 0
  {
    hide Requeue, Enqueue, Process, Usable, Delay;
    var a := job.attempt + 1;
    if a <= env.maxRetries && job.fileId in w.db.files {
      var ok := Outcome.Ok(0);
      var docId := w.db.files[job.fileId].docId;
      var db1 := Requeue(w.db, job.fileId, a, env.clock(w.ticks));
      CommitsUsable(w.db, job, ok, a, env.clock(w.ticks));
      CommitsUsable(db1, job, ok, a, env.clock(w.ticks + 1));
      var w1 := w.(db := db1, ticks := w.ticks + 1, slept := w.slept + Delay(env, a));
      assert HandleFailure(env, w, job) == EnqueueJob(env, w1, job.fileId, docId, a);
      if env.autoProcess {
        var w2 := w1.(db := Enqueue(db1, job.fileId, docId, a, env.clock(w1.ticks)), ticks := w1.ticks + 1);
        ProcessUsable(env, w2, Job(db1.nextJob, job.fileId, docId, a));
      }
    }
  }
}
