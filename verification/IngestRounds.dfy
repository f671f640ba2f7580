/** Rounds of `drain` - claim the head, process it - and why there are finitely many,
    however long each one takes. */
module IngestRounds {
  import opened Options
  import opened IngestRows
  import opened IngestProtocol
  import opened IngestLease
  import opened IngestWorld
  import opened IngestDrain

  // ---------------------------------------------------------------- orderly tables

  /** What leased runs keep: at most one unfinished row per file, none of a COMPLETED file. */
  ghost predicate Orderly(db: Db) {
    && RowIds(db) && OneOpenJob(db)
    && forall f, j :: f in db.files && db.files[f].status == Completed ==> !Open(db, j, f)
  }

  /** The job's row is unfinished and names the job's file. */
  predicate Owned(db: Db, job: Job) {
    Open(db, job.rowId, job.fileId)
  }

  lemma BeginOrderly(db: Db, job: Job, now: Time)
    requires Orderly(db) && Owned(db, job)
    ensures var (db1, proceed) := Begin(db, job, now);
      && Orderly(db1) && (if proceed then Owned(db1, job) && job.fileId in db1.files
                          else OnlyOwn(db, db1, job.rowId, None))
      && db1.nextJob == db.nextJob && job.rowId in db.jobs
      && forall j :: j != job.rowId ==> (j in db1.jobs <==> j in db.jobs) && (j in db.jobs ==> db1.jobs[j] == db.jobs[j])
  {
    var (db1, proceed) := Begin(db, job, now);
    forall j, f ensures Open(db1, j, f) ==> Open(db, j, f) {
    }
  }

  lemma FinalizeOrderly(db: Db, job: Job, outcome: Outcome, now: Time)
    requires Orderly(db) && Owned(db, job) && job.fileId in db.files
    ensures var db2 := Finalize(db, job, outcome, now);
      && Orderly(db2) && db2.nextJob == db.nextJob && (forall j :: !Open(db2, j, job.fileId))
      && OnlyOwn(db, db2, job.rowId, None)
  {
    var db2 := Finalize(db, job, outcome, now);
    forall j, f ensures Open(db2, j, f) <==> Open(db, j, f) && j != job.rowId {
    }
  }

  lemma RetryOrderly(db: Db, f: nat, docId: Option<nat>, attempt: nat, t0: Time, t1: Time)
    requires Orderly(db) && f in db.files && forall j :: !Open(db, j, f)
    ensures var db1 := Requeue(db, f, attempt, t0);
      var db2 := Enqueue(db1, f, docId, attempt, t1);
      && db1.jobs == db.jobs && db1.nextJob == db.nextJob && RowIds(db1)
      && Orderly(db2) && Owned(db2, Job(db.nextJob, f, docId, attempt))
  {
    var db1 := Requeue(db, f, attempt, t0);
    var db2 := Enqueue(db1, f, docId, attempt, t1);
    forall j, g ensures Open(db2, j, g) <==> Open(db, j, g) || (j == db.nextJob && g == f) {
    }
  }

  // --------------------------------------------------------- the measure, any clock

  /** On orderly tables processing finishes its row and puts back at most one lighter retry,
      whatever the clock reads. */
  lemma {:induction false} ProcessOrderly(env: Env, w: World, job: Job)
    requires Orderly(w.db) && Owned(w.db, job)
    ensures var end := Process(env, w, job).db;
      Orderly(end)
      && TotalWork(env, end, None) <= Work(env, w.db, None, Some(job.rowId), w.db.nextJob) + RetryWeight(env, job.attempt)
    decreases Left(env, job.attempt), 1
  {
    hide Begin, Finalize, TotalWork, Work, Owned, Orderly, HandleFailure, OnlyOwn;
    var (db1, proceed) := Begin(w.db, job, env.clock(w.ticks));
    BeginOrderly(w.db, job, env.clock(w.ticks));
    if !proceed {
      OwnWork(env, w.db, db1, job.rowId, None);
    } else {
      var outcome := env.ingest(w.calls);
      var db2 := Finalize(db1, job, outcome, env.clock(w.ticks + 1));
      FinalizeOrderly(db1, job, outcome, env.clock(w.ticks + 1));
      OnlyOwnStill(w.db, db1, db2, job.rowId);
      OwnWork(env, w.db, db2, job.rowId, None);
      var w2 := World(db2, w.ticks + 2, w.calls + 1, w.slept, w.attempts + [(job.fileId, job.attempt)]);
      if outcome.Error? {
        assert Process(env, w, job) == HandleFailure(env, w2, job);
        FailureOrderly(env, w2, job);
      }
    }
  }

  lemma OnlyOwnStill(a: Db, b: Db, c: Db, own: nat)
    requires b.nextJob == a.nextJob && OnlyOwn(b, c, own, None) && own in a.jobs
    requires forall j :: j != own ==> (j in b.jobs <==> j in a.jobs) && (j in a.jobs ==> b.jobs[j] == a.jobs[j])
    ensures OnlyOwn(a, c, own, None)
  {
    hide Pending;
  }

  lemma {:induction false} FailureOrderly(env: Env, w: World, job: Job)
    requires Orderly(w.db) && forall j :: !Open(w.db, j, job.fileId)
    ensures var end := HandleFailure(env, w, job).db;
      Orderly(end) && TotalWork(env, end, None) <= TotalWork(env, w.db, None) + RetryWeight(env, job.attempt)
    decreases Left(env, job.attempt), 0
  {
    var a := job.attempt + 1;
    if a <= env.maxRetries && job.fileId in w.db.files {
      hide Enqueue, Requeue, Work, Process, Delay, Orderly, Owned;
      var docId := w.db.files[job.fileId].docId;
      var w1 := w.(db := Requeue(w.db, job.fileId, a, env.clock(w.ticks)), ticks := w.ticks + 1,
                   slept := w.slept + Delay(env, a));
      RetryOrderly(w.db, job.fileId, docId, a, env.clock(w.ticks), env.clock(w1.ticks));
      WorkLe(env, w1.db, None, w.db, None, None, w.db.nextJob);
      assert HandleFailure(env, w, job) == EnqueueJob(env, w1, job.fileId, docId, a);
      EnqueueWork(env, w1.db, job.fileId, docId, a, env.clock(w1.ticks), None);
      if env.autoProcess {
        var w2 := w1.(db := Enqueue(w1.db, job.fileId, docId, a, env.clock(w1.ticks)), ticks := w1.ticks + 1);
        ProcessOrderly(env, w2, Job(w1.db.nextJob, job.fileId, docId, a));
      }
    }
  }

  lemma ClaimOrderly(env: Env, db: Db, id: nat, now: Time)
    requires Orderly(db) && id in db.jobs && Unfinished(db.jobs[id])
    ensures var (db1, job) := Claim(db, id, db.jobs[id].status, now);
      job.Some? ==>
        && Orderly(db1) && Owned(db1, job.value) && job.value.rowId == id && db1.nextJob == db.nextJob
        && Work(env, db1, None, Some(id), db1.nextJob) + RetryWeight(env, job.value.attempt) < TotalWork(env, db, None)
  {
    var (db1, job) := Claim(db, id, db.jobs[id].status, now);
    if job.Some? {
      forall j, f ensures Open(db1, j, f) <==> Open(db, j, f) {
      }
      WorkLe(env, db1, Some(id), db, Some(id), None, db.nextJob);
      WorkSplit(env, db, None, id, db.nextJob);
      assert Weight(env, db.jobs[id]) > RetryWeight(env, job.value.attempt);
      hide Work;
    }
  }

  // ------------------------------------------------------------------------ rounds

  /** The time between two successive readings of the clock. */
  function Wait(env: Env, i: nat): Time {
    env.clock(i + 1) - env.clock(i)
  }

  /** The row is the head of the order at this reading of the clock, and usable. */
  ghost predicate RoundOk(env: Env, w: World, id: nat) {
    && IsHead(w.db, id, env.clock(w.ticks) - env.timeout)
    && Claim(w.db, id, w.db.jobs[id].status, env.clock(w.ticks)).1.Some?
  }

  /** Claim the row and process its job. */
  function AfterRound(env: Env, w: World, id: nat): World {
    if id !in w.db.jobs then w
    else
      var (db1, job) := Claim(w.db, id, w.db.jobs[id].status, env.clock(w.ticks));
      if job.None? then w else Process(env, w.(db := db1, ticks := w.ticks + 1), job.value)
  }

  function AfterRounds(env: Env, w: World, ids: seq<nat>): World {
    if ids == [] then w else AfterRound(env, AfterRounds(env, w, ids[..|ids| - 1]), ids[|ids| - 1])
  }

  ghost predicate RoundsOk(env: Env, w: World, ids: seq<nat>) {
    ids == []
    || (RoundsOk(env, w, ids[..|ids| - 1]) && RoundOk(env, AfterRounds(env, w, ids[..|ids| - 1]), ids[|ids| - 1]))
  }

  lemma RoundsSnoc(env: Env, w: World, ids: seq<nat>, id: nat)
    requires RoundsOk(env, w, ids) && RoundOk(env, AfterRounds(env, w, ids), id)
    ensures RoundsOk(env, w, ids + [id]) && AfterRounds(env, w, ids + [id]) == AfterRound(env, AfterRounds(env, w, ids), id)
  {
    assert (ids + [id])[..|ids|] == ids;
    hide RoundOk, AfterRound;
  }

  /** Main result: on orderly tables every round keeps them orderly and lowers the sum of
      max(1, maxRetries + 1 - attempt) over all unfinished rows - for any clock, so however
      long the rounds take, and with immediate processing or without. */
  lemma RoundLowersWork(env: Env, w: World, id: nat)
    requires Orderly(w.db) && RoundOk(env, w, id)
    ensures var end := AfterRound(env, w, id).db;
      Orderly(end) && TotalWork(env, end, None) < TotalWork(env, w.db, None)
  {
    var now := env.clock(w.ticks);
    assert Unfinished(w.db.jobs[id]);
    hide IsHead;
    ClaimOrderly(env, w.db, id, now);
    var (db1, job) := Claim(w.db, id, w.db.jobs[id].status, now);
    hide Claim, Process, Work, TotalWork, Orderly, Owned;
    ProcessOrderly(env, w.(db := db1, ticks := w.ticks + 1), job.value);
  }

  /** So there are at most as many rounds as the measure at the start. */
  lemma {:induction false} RoundsBounded(env: Env, w: World, ids: seq<nat>)
    requires Orderly(w.db) && RoundsOk(env, w, ids)
    ensures Orderly(AfterRounds(env, w, ids).db)
    ensures |ids| + TotalWork(env, AfterRounds(env, w, ids).db, None) <= TotalWork(env, w.db, None)
  {
    if ids != [] {
      var n := |ids| - 1;
      RoundsBounded(env, w, ids[..n]);
      hide Orderly, RoundOk, TotalWork, AfterRound;
      RoundLowersWork(env, AfterRounds(env, w, ids[..n]), ids[n]);
    }
  }

  /** Leased runs keep the tables orderly. */
  lemma SafeIsOrderly(cfg: Config, s: State)
    requires Safe(cfg, s)
    ensures Orderly(s.db)
  {
    forall f, j | f in s.db.files && s.db.files[f].status == Completed ensures !Open(s.db, j, f) {
      assert !Busy(s, f);
    }
  }

  // ---------------------------------------------------------------- ends of drains

  predicate AtMost(ids: seq<nat>, n: nat) {
    |ids| <= n
  }

  ghost predicate NoMoreThan(env: Env, w: World, n: nat) {
    forall ids: seq<nat> :: RoundsOk(env, w, ids) ==> AtMost(ids, n)
  }

  /** There is a bound on how many rounds can follow each other from here. */
  ghost predicate Ends(env: Env, w: World) {
    exists n: nat :: NoMoreThan(env, w, n)
  }

  /** Orderly tables end, for every clock ... */
  lemma OrderlyEnds(env: Env, w: World)
    requires Orderly(w.db)
    ensures Ends(env, w)
  {
    forall ids: seq<nat> | RoundsOk(env, w, ids) ensures AtMost(ids, TotalWork(env, w.db, None)) {
      RoundsBounded(env, w, ids);
      hide *;
    }
    hide RoundsOk, TotalWork;
    assert NoMoreThan(env, w, TotalWork(env, w.db, None));
  }

  /** Every reading of the clock from here on is within one timeout after the bound. */
  ghost predicate WithinTimeout(env: Env, first: nat, bound: Time) {
    forall i :: first <= i ==> bound < env.clock(i) <= bound + env.timeout
  }

  lemma WindowRound(env: Env, w: World, id: nat, bound: Time)
    requires RowIds(w.db) && WithinTimeout(env, w.ticks, bound) && RoundOk(env, w, id)
    ensures var end := AfterRound(env, w, id);
      && RowIds(end.db) && WithinTimeout(env, end.ticks, bound)
      && TotalWork(env, end.db, Some(bound)) < TotalWork(env, w.db, Some(bound))
  {
    assert id in w.db.jobs;
    hide Process, Claim, TotalWork, IsHead, RowIds;
    RoundShrinksWork(env, w, id, bound);
  }

  lemma {:induction false} WindowBounded(env: Env, w: World, bound: Time, ids: seq<nat>)
    requires RowIds(w.db) && WithinTimeout(env, w.ticks, bound) && RoundsOk(env, w, ids)
    ensures var end := AfterRounds(env, w, ids);
      && RowIds(end.db) && WithinTimeout(env, end.ticks, bound)
      && |ids| + TotalWork(env, end.db, Some(bound)) <= TotalWork(env, w.db, Some(bound))
  {
    if ids != [] {
      hide RowIds, WithinTimeout, RoundOk, AfterRound, TotalWork;
      var n := |ids| - 1;
      WindowBounded(env, w, bound, ids[..n]);
      WindowRound(env, AfterRounds(env, w, ids[..n]), ids[n], bound);
    }
  }

  /** ... and any tables while the clock moves by less than a timeout, so that no row turns stale. */
  lemma WindowEnds(env: Env, w: World, bound: Time)
    requires RowIds(w.db) && WithinTimeout(env, w.ticks, bound)
    ensures Ends(env, w)
  {
    forall ids: seq<nat> | RoundsOk(env, w, ids) ensures AtMost(ids, TotalWork(env, w.db, Some(bound))) {
      WindowBounded(env, w, bound, ids);
      hide *;
    }
    hide RoundsOk, TotalWork, WithinTimeout;
    assert NoMoreThan(env, w, TotalWork(env, w.db, Some(bound)));
  }

  // ------------------------------------------------------- what a round leaves alone

  /** Rows other than `own` stay as they are, and ids stay in bounds. */
  ghost predicate OthersKept(a: Db, b: Db, own: nat) {
    && (RowIds(a) ==> RowIds(b)) && a.nextJob <= b.nextJob
    && forall j :: j in a.jobs && j != own ==> j in b.jobs && b.jobs[j] == a.jobs[j]
  }

  lemma BeginOthers(db: Db, job: Job, now: Time)
    ensures OthersKept(db, Begin(db, job, now).0, job.rowId)
  {
  }

  lemma FinalizeOthers(db: Db, job: Job, outcome: Outcome, now: Time)
    ensures OthersKept(db, Finalize(db, job, outcome, now), job.rowId)
    ensures job.rowId in db.jobs ==>
      job.rowId in Finalize(db, job, outcome, now).jobs && !Unfinished(Finalize(db, job, outcome, now).jobs[job.rowId])
  {
  }

  lemma RetryOthers(db: Db, f: nat, docId: Option<nat>, attempt: nat, t0: Time, t1: Time)
    requires RowIds(db)
    ensures OthersKept(db, Enqueue(Requeue(db, f, attempt, t0), f, docId, attempt, t1), db.nextJob)
  {
  }

  lemma OthersSteps(a: Db, b: Db, c: Db, own: nat, next: nat)
    requires OthersKept(a, b, own) && OthersKept(b, c, next) && (next == own || a.nextJob <= next) && RowIds(a)
    ensures OthersKept(a, c, own)
  {
  }

  lemma {:induction false} ProcessOthers(env: Env, w: World, job: Job)
    requires RowIds(w.db)
    ensures OthersKept(w.db, Process(env, w, job).db, job.rowId)
    decreases Left(env, job.attempt), 1
  {
    hide Begin, Finalize, HandleFailure, OthersKept, RowIds;
    var (db1, proceed) := Begin(w.db, job, env.clock(w.ticks));
    BeginOthers(w.db, job, env.clock(w.ticks));
    if proceed {
      var outcome := env.ingest(w.calls);
      var db2 := Finalize(db1, job, outcome, env.clock(w.ticks + 1));
      FinalizeOthers(db1, job, outcome, env.clock(w.ticks + 1));
      OthersSteps(w.db, db1, db2, job.rowId, job.rowId);
      if outcome.Error? {
        var w2 := World(db2, w.ticks + 2, w.calls + 1, w.slept, w.attempts + [(job.fileId, job.attempt)]);
        assert Process(env, w, job) == HandleFailure(env, w2, job);
        OthersMean(w.db, db2, job.rowId);
        FailureOthers(env, w2, job);
        OthersSteps(w.db, db2, HandleFailure(env, w2, job).db, job.rowId, db2.nextJob);
      }
    }
  }

  lemma OthersMean(a: Db, b: Db, own: nat)
    requires OthersKept(a, b, own) && RowIds(a)
    ensures RowIds(b) && a.nextJob <= b.nextJob
    ensures forall j :: j in a.jobs && j != own ==> j in b.jobs && b.jobs[j] == a.jobs[j]
  {
  }

  /** A failure adds rows and changes none. */
  lemma {:induction false} FailureOthers(env: Env, w: World, job: Job)
    requires RowIds(w.db)
    ensures OthersKept(w.db, HandleFailure(env, w, job).db, w.db.nextJob)
    decreases Left(env, job.attempt), 0
  {
    var a := job.attempt + 1;
    if a <= env.maxRetries && job.fileId in w.db.files {
      hide Enqueue, Requeue, Process, Delay, OthersKept;
      var docId := w.db.files[job.fileId].docId;
      var w1 := w.(db := Requeue(w.db, job.fileId, a, env.clock(w.ticks)), ticks := w.ticks + 1,
                   slept := w.slept + Delay(env, a));
      RequeueKeepsRows(w.db, job.fileId, a, env.clock(w.ticks));
      var db2 := Enqueue(w1.db, job.fileId, docId, a, env.clock(w1.ticks));
      RetryOthers(w.db, job.fileId, docId, a, env.clock(w.ticks), env.clock(w1.ticks));
      assert HandleFailure(env, w, job) == EnqueueJob(env, w1, job.fileId, docId, a);
      if env.autoProcess {
        var w2 := w1.(db := db2, ticks := w1.ticks + 1);
        OthersMean(w.db, db2, w.db.nextJob);
        ProcessOthers(env, w2, Job(w1.db.nextJob, job.fileId, docId, a));
        OthersSteps(w.db, db2, Process(env, w2, Job(w1.db.nextJob, job.fileId, docId, a)).db, w.db.nextJob, w.db.nextJob);
      }
    } else {
      assert OthersKept(w.db, w.db, w.db.nextJob);
    }
  }

  lemma RequeueKeepsRows(db: Db, f: nat, attempt: nat, now: Time)
    ensures Requeue(db, f, attempt, now).jobs == db.jobs && Requeue(db, f, attempt, now).nextJob == db.nextJob
  {
  }

  lemma RoundKeepsIds(env: Env, w: World, id: nat)
    requires RowIds(w.db)
    ensures RowIds(AfterRound(env, w, id).db)
  {
    if id in w.db.jobs {
      var (db1, job) := Claim(w.db, id, w.db.jobs[id].status, env.clock(w.ticks));
      assert RowIds(db1);
      hide Claim, Process;
      if job.Some? { ProcessOthers(env, w.(db := db1, ticks := w.ticks + 1), job.value); }
    }
  }

  // --------------------------------------------------- which rows a round finishes

  /** The row's file is there and COMPLETED. */
  predicate OfCompleted(db: Db, id: nat) {
    && id in db.jobs && db.jobs[id].payload.fileId.Some?
    && var f := db.jobs[id].payload.fileId.value; f in db.files && db.files[f].status == Completed
  }

  lemma BeginOutcome(db: Db, job: Job, now: Time)
    requires job.rowId in db.jobs && db.jobs[job.rowId].status == Processing
    ensures var (db1, proceed) := Begin(db, job, now);
      && job.rowId in db1.jobs
      && (!proceed ==> (Unfinished(db1.jobs[job.rowId])
                        <==> job.fileId in db.files && db.files[job.fileId].status == Completed))
      && (proceed ==> job.fileId in db.files && db.files[job.fileId].status != Completed)
  {
  }

  lemma ProcessFinishesIff(env: Env, w: World, job: Job)
    requires RowIds(w.db) && job.rowId in w.db.jobs && w.db.jobs[job.rowId].status == Processing
    ensures var end := Process(env, w, job).db;
      && job.rowId in end.jobs
      && (Unfinished(end.jobs[job.rowId])
          <==> job.fileId in w.db.files && w.db.files[job.fileId].status == Completed)
  {
    hide Begin, Finalize, HandleFailure, OthersKept, RowIds;
    var (db1, proceed) := Begin(w.db, job, env.clock(w.ticks));
    BeginOutcome(w.db, job, env.clock(w.ticks));
    if proceed {
      var outcome := env.ingest(w.calls);
      var db2 := Finalize(db1, job, outcome, env.clock(w.ticks + 1));
      BeginOthers(w.db, job, env.clock(w.ticks));
      OthersMean(w.db, db1, job.rowId);
      FinalizeOthers(db1, job, outcome, env.clock(w.ticks + 1));
      OthersMean(db1, db2, job.rowId);
      if outcome.Error? {
        var w2 := World(db2, w.ticks + 2, w.calls + 1, w.slept, w.attempts + [(job.fileId, job.attempt)]);
        assert Process(env, w, job) == HandleFailure(env, w2, job);
        FailureOthers(env, w2, job);
        OthersMean(db2, HandleFailure(env, w2, job).db, db2.nextJob);
        InBounds(db2, job.rowId);
      }
    }
  }

  lemma InBounds(db: Db, j: nat)
    requires RowIds(db) && j in db.jobs
    ensures j < db.nextJob
  {
  }

  /** Main result: a round finishes the row it claims unless the row's file is COMPLETED.
      Such a row stays PROCESSING, to be claimed again when it is stale again. */
  lemma RoundFinishesIff(env: Env, w: World, id: nat)
    requires RowIds(w.db) && RoundOk(env, w, id)
    ensures var end := AfterRound(env, w, id).db;
      id in end.jobs && Unfinished(end.jobs[id]) <==> OfCompleted(w.db, id)
  {
    var now := env.clock(w.ticks);
    var (db1, job) := Claim(w.db, id, w.db.jobs[id].status, now);
    assert job.value.rowId == id && Some(job.value.fileId) == w.db.jobs[id].payload.fileId && db1.files == w.db.files;
    assert RowIds(db1) && db1.jobs[id].status == Processing;
    hide Claim, Process, IsHead;
    ProcessFinishesIff(env, w.(db := db1, ticks := w.ticks + 1), job.value);
  }
}
