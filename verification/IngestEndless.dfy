/** Which tables `drain` can be trusted to finish: exactly the orderly ones. */
module IngestEndless {
  import opened Options
  import opened IngestRows
  import opened IngestProtocol
  import opened IngestLease
  import opened IngestWorld
  import opened IngestDrain
  import opened IngestRounds
  import IngestAgreement

  /** Every unfinished row is one that `drain` can claim, and names a file. */
  ghost predicate Serviceable(db: Db) {
    && RowIds(db)
    && forall j :: j in db.jobs && Unfinished(db.jobs[j]) ==>
         db.jobs[j].jobType == INGEST && db.jobs[j].payload.fileId.Some? && db.jobs[j].payload.fileId.value in db.files
  }

  /** Every PROCESSING row is stale at the next reading of the clock. */
  ghost predicate AllStale(env: Env, w: World) {
    forall j :: j in w.db.jobs && w.db.jobs[j].status == Processing ==>
      w.db.jobs[j].updatedAt <= env.clock(w.ticks) - env.timeout
  }

  /** What keeps a drain going: tables that are not orderly, and nothing too fresh to claim. */
  ghost predicate Tangled(env: Env, w: World) {
    Serviceable(w.db) && !Orderly(w.db) && AllStale(env, w)
  }

  /** Ingestion always succeeds and a timeout passes between readings of the clock. */
  ghost predicate Sluggish(env: Env) {
    && env.timeout >= 0.0
    && (forall i :: Wait(env, i) >= env.timeout) && forall i :: env.ingest(i).Ok?
  }

  lemma Readings(env: Env, i: nat)
    requires Sluggish(env)
    ensures env.clock(i) + env.timeout <= env.clock(i + 1)
    ensures env.clock(i + 1) + env.timeout <= env.clock(i + 2)
    ensures env.clock(i + 2) + env.timeout <= env.clock(i + 3)
  {
    assert Wait(env, i) >= env.timeout && Wait(env, i + 1) >= env.timeout && Wait(env, i + 2) >= env.timeout;
  }

  // ------------------------------------------------------------- one round of many

  /** What a round on row `id` does when ingestion succeeds. */
  ghost predicate Succeeded(env: Env, w: World, end: World, id: nat) {
    && id in w.db.jobs && w.db.jobs[id].payload.fileId.Some? && w.db.jobs[id].payload.fileId.value in w.db.files
    && end.db.nextJob == w.db.nextJob && end.db.jobs.Keys == w.db.jobs.Keys && end.db.files.Keys == w.db.files.Keys
    && (forall j :: j in w.db.jobs && j != id ==> end.db.jobs[j] == w.db.jobs[j])
    && end.db.jobs[id].payload.fileId == w.db.jobs[id].payload.fileId && end.db.jobs[id].jobType == w.db.jobs[id].jobType
    && var f := w.db.jobs[id].payload.fileId.value;
       && (forall g :: g in w.db.files && g != f ==> end.db.files[g] == w.db.files[g])
       && end.db.files[f].status == Completed
       && if w.db.files[f].status == Completed
          then end.db.jobs[id].status == Processing && end.db.jobs[id].updatedAt == env.clock(w.ticks)
               && end.ticks == w.ticks + 2
          else end.db.jobs[id].status == Completed && end.ticks == w.ticks + 3
  }

  lemma ClaimTakes(db: Db, id: nat, now: Time)
    requires id in db.jobs && db.jobs[id].payload.fileId.Some?
    ensures var (db1, job) := Claim(db, id, db.jobs[id].status, now);
      && db1 == db.(jobs := db.jobs[id := ClaimedRow(db.jobs[id], now)])
      && job.Some? && job.value.rowId == id && Some(job.value.fileId) == db.jobs[id].payload.fileId
      && ClaimedRow(db.jobs[id], now).payload.fileId == db.jobs[id].payload.fileId
  {
  }

  /** What processing a claimed job does when ingestion succeeds. */
  ghost predicate Processed(w: World, end: World, job: Job) {
    && job.rowId in w.db.jobs && job.fileId in w.db.files
    && job.rowId in end.db.jobs && job.fileId in end.db.files
    && end.db.nextJob == w.db.nextJob && end.db.jobs == w.db.jobs[job.rowId := end.db.jobs[job.rowId]]
    && end.db.files == w.db.files[job.fileId := end.db.files[job.fileId]]
    && end.db.files[job.fileId].status == Completed
    && if w.db.files[job.fileId].status == Completed
       then end.db.jobs[job.rowId] == w.db.jobs[job.rowId] && end.ticks == w.ticks + 1
       else end.db.jobs[job.rowId].status == Completed && end.ticks == w.ticks + 2
            && end.db.jobs[job.rowId].payload.fileId == w.db.jobs[job.rowId].payload.fileId
            && end.db.jobs[job.rowId].jobType == w.db.jobs[job.rowId].jobType
  }

  lemma ProcessSucceeds(env: Env, w: World, job: Job)
    requires job.rowId in w.db.jobs && w.db.jobs[job.rowId].status == Processing && job.fileId in w.db.files
    requires env.ingest(w.calls).Ok?
    ensures Processed(w, Process(env, w, job), job)
  {
    hide SetDoc;
  }

  lemma ProcessedClaim(env: Env, w: World, w1: World, end: World, job: Job)
    requires job.rowId in w.db.jobs && Some(job.fileId) == w.db.jobs[job.rowId].payload.fileId
    requires w1 == w.(db := w.db.(jobs := w.db.jobs[job.rowId := ClaimedRow(w.db.jobs[job.rowId], env.clock(w.ticks))]),
                      ticks := w.ticks + 1)
    requires Processed(w1, end, job)
    ensures Succeeded(env, w, end, job.rowId)
  {
  }

  lemma RoundSucceeds(env: Env, w: World, id: nat)
    requires Serviceable(w.db) && RoundOk(env, w, id) && env.ingest(w.calls).Ok?
    ensures Succeeded(env, w, AfterRound(env, w, id), id)
  {
    var now := env.clock(w.ticks);
    assert Unfinished(w.db.jobs[id]);
    hide IsHead, Serviceable, Claim, Process, RoundOk, Processed, Succeeded;
    ClaimTakes(w.db, id, now);
    var (db1, job) := Claim(w.db, id, w.db.jobs[id].status, now);
    var w1 := w.(db := db1, ticks := w.ticks + 1);
    ProcessSucceeds(env, w1, job.value);
    ProcessedClaim(env, w, w1, Process(env, w1, job.value), job.value);
  }

  lemma StillServiceable(env: Env, w: World, end: World, id: nat)
    requires Serviceable(w.db) && Succeeded(env, w, end, id) && Unfinished(w.db.jobs[id])
    ensures Serviceable(end.db)
  {
  }

  lemma StillStale(env: Env, w: World, end: World, id: nat)
    requires Sluggish(env) && AllStale(env, w) && Succeeded(env, w, end, id)
    ensures AllStale(env, end)
  {
    Readings(env, w.ticks);
    hide Sluggish;
  }

  /** A file with two unfinished rows becomes a COMPLETED file with one; that stays. */
  lemma StillDisorderly(env: Env, w: World, end: World, id: nat)
    requires RowIds(w.db) && !Orderly(w.db) && Succeeded(env, w, end, id)
    ensures !Orderly(end.db)
  {
    if f, i, j :| Open(w.db, i, f) && Open(w.db, j, f) && i != j {
      var k := if i == id then j else i;
      assert Open(end.db, k, f);
      if id == i || id == j {
        assert end.db.files[f].status == Completed;
      } else {
        assert Open(end.db, i, f) && Open(end.db, j, f);
      }
    } else {
      var f, j :| f in w.db.files && w.db.files[f].status == Completed && Open(w.db, j, f);
      assert end.db.files[f].status == Completed && Open(end.db, j, f);
    }
  }

  lemma StillTangled(env: Env, w: World, id: nat)
    requires Sluggish(env) && Tangled(env, w) && RoundOk(env, w, id)
    ensures Tangled(env, AfterRound(env, w, id))
  {
    assert Unfinished(w.db.jobs[id]);
    assert RowIds(w.db) && env.ingest(w.calls).Ok?;
    hide AfterRound, RoundOk, Sluggish, Serviceable, AllStale, Succeeded, Orderly, RowIds;
    RoundSucceeds(env, w, id);
    var end := AfterRound(env, w, id);
    StillServiceable(env, w, end, id);
    StillStale(env, w, end, id);
    StillDisorderly(env, w, end, id);
  }

  lemma SomeOpen(db: Db) returns (j: nat, f: nat)
    requires RowIds(db) && !Orderly(db)
    ensures Open(db, j, f)
  {
    if g, i, k :| Open(db, i, g) && Open(db, k, g) && i != k {
      j, f := i, g;
    } else {
      f, j :| f in db.files && db.files[f].status == Completed && Open(db, j, f);
    }
  }

  lemma NextRound(env: Env, w: World) returns (id: nat)
    requires Tangled(env, w)
    ensures RoundOk(env, w, id)
  {
    var cutoff := env.clock(w.ticks) - env.timeout;
    var j, f := SomeOpen(w.db);
    assert Eligible(w.db.jobs[j], cutoff);
    hide Orderly, IsHead;
    HeadExists(w.db, cutoff);
    id :| IsHead(w.db, id, cutoff);
    HeadClaimed(w.db, id, cutoff, env.clock(w.ticks));
  }

  lemma HeadClaimed(db: Db, id: nat, cutoff: Time, now: Time)
    requires Serviceable(db) && IsHead(db, id, cutoff)
    ensures id in db.jobs && Claim(db, id, db.jobs[id].status, now).1.Some?
  {
    assert Eligible(db.jobs[id], cutoff);
  }

  /** So there are runs of any number of rounds. */
  lemma {:induction false} NeverEnds(env: Env, w: World, n: nat) returns (ids: seq<nat>)
    requires Sluggish(env) && Tangled(env, w)
    ensures |ids| == n && RoundsOk(env, w, ids) && Tangled(env, AfterRounds(env, w, ids))
  {
    ids := [];
    if n > 0 {
      ids := NeverEnds(env, w, n - 1);
      hide *;
      var mid := AfterRounds(env, w, ids);
      var id := NextRound(env, mid);
      StillTangled(env, mid, id);
      RoundsSnoc(env, w, ids, id);
      ids := ids + [id];
    }
  }

  lemma TangledNeverEnds(env: Env, w: World)
    requires Sluggish(env) && Tangled(env, w)
    ensures !Ends(env, w)
  {
    forall n: nat ensures !NoMoreThan(env, w, n) {
      var ids := NeverEnds(env, w, n + 1);
      hide Sluggish, Tangled, RoundsOk;
      assert !AtMost(ids, n);
    }
  }

  // ------------------------------------------------------------- the exact condition

  /** The same settings, with a clock and ingest results of its own; the clock does not go back. */
  ghost predicate Variant(env: Env, other: Env) {
    && GoodEnv(other)
    && other == env.(clock := other.clock, ingest := other.ingest)
  }

  /** A time after every write in the table. */
  lemma {:induction false} Latest(db: Db, ids: set<nat>) returns (t: Time)
    requires ids <= db.jobs.Keys
    ensures forall j :: j in ids ==> db.jobs[j].updatedAt <= t
    decreases |ids|
  {
    if ids == {} {
      t := 0.0;
    } else {
      var j :| j in ids;
      var rest := Latest(db, ids - {j});
      t := if rest < db.jobs[j].updatedAt then db.jobs[j].updatedAt else rest;
      assert forall i :: i in ids ==> i == j || i in ids - {j};
    }
  }

  function Slow(env: Env, first: Time): Env {
    env.(clock := (i: nat) => first + env.timeout * i as real, ingest := (i: nat) => Ok(0))
  }

  lemma Multiplied(a: real, i: nat, j: nat)
    requires a >= 0.0 && i <= j
    ensures a * i as real <= a * j as real
    ensures a * (i + 1) as real == a * i as real + a
  {
  }

  lemma SlowIsSluggish(env: Env, first: Time)
    requires GoodEnv(env)
    ensures Sluggish(Slow(env, first)) && Variant(env, Slow(env, first)) && Slow(env, first).clock(0) == first
  {
    var slow := Slow(env, first);
    forall i: nat ensures Wait(slow, i) >= slow.timeout {
      Multiplied(env.timeout, i, i + 1);
    }
    forall i: nat, j: nat | i <= j ensures slow.clock(i) <= slow.clock(j) {
      Multiplied(env.timeout, i, j);
    }
  }

  lemma DisorderlyIsTangled(env: Env, w: World, first: Time)
    requires Serviceable(w.db) && !Orderly(w.db) && w.ticks == 0
    requires forall j :: j in w.db.jobs ==> w.db.jobs[j].updatedAt <= first - env.timeout
    ensures Slow(env, first).clock(0) == first ==> Tangled(Slow(env, first), w)
  {
  }

  /** Main result: under any settings, a drain of the tables has a bound on its rounds
      whatever the clock reads and the calls return exactly when the tables are orderly. */
  lemma DrainEndsIff(env: Env, db: Db)
    requires GoodEnv(env) && Serviceable(db)
    ensures Orderly(db) <==> forall other: Env, w: World :: Variant(env, other) && w.db == db ==> Ends(other, w)
  {
    if Orderly(db) {
      forall other: Env, w: World | Variant(env, other) && w.db == db ensures Ends(other, w) {
        OrderlyEnds(other, w);
      }
    } else {
      var last := Latest(db, db.jobs.Keys);
      var first := last + env.timeout;
      var w := World(db, 0, 0, 0.0, []);
      hide *;
      SlowIsSluggish(env, first);
      DisorderlyIsTangled(env, w, first);
      TangledNeverEnds(Slow(env, first), w);
    }
  }

  // ---------------------------------------------------------------- reached tables

  ghost predicate AllIngest(db: Db) {
    forall j :: j in db.jobs ==> db.jobs[j].jobType == INGEST
  }

  lemma RegisterIngest(db: Db, key: Key, upload: SourceFile, mime: Option<string>, now: Time)
    requires AllIngest(db)
    ensures AllIngest(Register(db, key, upload, mime, now))
  {
    var (db1, d) := RegisterDoc(db, key, mime);
    assert db1.jobs == db.jobs;
    hide RegisterDoc;
    var (db2, f, queued) := RegisterFile(db1, key, upload, d, now);
    assert db2.jobs == db.jobs;
    hide RegisterFile;
  }

  lemma StepIngest(cfg: Config, s: State, step: Step)
    requires AllIngest(s.db) && Enabled(cfg, s, step)
    ensures AllIngest(Apply(cfg, s, step).db)
  {
    hide Register, IsHead;
    if step.Upload? { RegisterIngest(s.db, step.key, step.upload, step.mime, s.now); }
  }

  /** Every run leaves serviceable tables. */
  lemma {:induction false} RunsServiceable(cfg: Config, s: State, steps: seq<Step>)
    requires AllIngest(s.db) && IngestAgreement.Agree(s) && Run(cfg, s, steps)
    ensures Serviceable(Exec(cfg, s, steps).db)
    decreases |steps|
  {
    if steps == [] {
      assert IngestAgreement.JobsRefer(s.db);
      hide IngestAgreement.FilesIndexed, IngestAgreement.DocsIndexed, IngestAgreement.StatusesAgree;
    } else {
      hide AllIngest, IngestAgreement.Agree, Serviceable;
      StepIngest(cfg, s, steps[0]);
      IngestAgreement.StepKeeps(cfg, s, steps[0]);
      RunsServiceable(cfg, Apply(cfg, s, steps[0]), steps[1..]);
    }
  }

  /** So the condition is exact of the tables any run reaches. */
  lemma ReachedDrainEndsIff(cfg: Config, start: Time, steps: seq<Step>, env: Env)
    requires Run(cfg, StartState(start), steps) && GoodEnv(env)
    ensures var db := Exec(cfg, StartState(start), steps).db;
      Orderly(db) <==> forall other: Env, w: World :: Variant(env, other) && w.db == db ==> Ends(other, w)
  {
    StartSound(cfg, start);
    assert AllIngest(StartState(start).db);
    hide *;
    RunsServiceable(cfg, StartState(start), steps);
    DrainEndsIff(env, Exec(cfg, StartState(start), steps).db);
  }

  // ------------------------------------------------------ a run to a disorderly table

  predicate QueuedRow(db: Db, j: nat, now: Time) {
    && j in db.jobs && db.jobs[j].status == Queued && db.jobs[j].jobType == INGEST && db.jobs[j].priority == 0
    && db.jobs[j].createdAt == now && db.jobs[j].payload.fileId == Some(0)
  }

  predicate ClosedRow(db: Db, j: nat) {
    j in db.jobs && !Unfinished(db.jobs[j])
  }

  predicate FileIs(db: Db, f: nat, status: Status) {
    f in db.files && db.files[f].status == status
  }

  predicate TwoQueued(s: State, now: Time) {
    && s.now == now && s.Of(1).Idle? && s.db.jobs.Keys == {0, 1, 2} && FileIs(s.db, 0, Queued)
    && ClosedRow(s.db, 0) && QueuedRow(s.db, 1, now) && QueuedRow(s.db, 2, now)
  }

  predicate OneLeft(s: State, now: Time) {
    && s.now == now && s.Of(1).Idle? && s.db.jobs.Keys == {0, 1, 2} && FileIs(s.db, 0, Completed)
    && ClosedRow(s.db, 0) && ClosedRow(s.db, 1) && QueuedRow(s.db, 2, now)
  }

  lemma AfterReupload(cfg: Config, s: State, key: Key, again: SourceFile, now: Time)
    requires IngestAgreement.FilesIndexed(s.db) && s.now == now && s.workers == map[0 := Failing(Job(0, 0, Some(0), 0))]
    requires FileIs(s.db, 0, Failed) && key in s.db.fileOf && s.db.fileOf[key] == 0
    requires s.db.jobs.Keys == {0} && s.db.jobs[0].status == Failed && s.db.nextJob == 1
    ensures var t := Apply(cfg, s, Upload(key, again, None));
      && t.now == now && t.workers == s.workers && t.db.jobs.Keys == {0, 1} && t.db.nextJob == 2
      && FileIs(t.db, 0, Queued) && ClosedRow(t.db, 0) && QueuedRow(t.db, 1, now)
  {
    hide Register, IngestAgreement.FilesIndexed;
    var f, d, queued := RegisterShape(s.db, key, again, None, s.now);
  }

  /** The restart's job, and beside it the job of the retry that was owed. */
  lemma RestartThenRetry(cfg: Config, s: State, key: Key, again: SourceFile, now: Time)
    requires cfg.maxRetries >= 1
    requires IngestAgreement.FilesIndexed(s.db) && s.now == now && s.workers == map[0 := Failing(Job(0, 0, Some(0), 0))]
    requires FileIs(s.db, 0, Failed) && key in s.db.fileOf && s.db.fileOf[key] == 0
    requires s.db.jobs.Keys == {0} && s.db.jobs[0].status == Failed && s.db.nextJob == 1
    ensures var steps := [Upload(key, again, None)] + ([Retry(0)] + ([Reenqueue(0)] + []));
      Run(cfg, s, steps) && TwoQueued(Exec(cfg, s, steps), now)
  {
    hide Apply, TwoQueued, IngestAgreement.FilesIndexed;
    AfterReupload(cfg, s, key, again, now);
    var s1 := Apply(cfg, s, Upload(key, again, None));
    RetryFollows(cfg, s1, now);
    RunCons(cfg, s, Upload(key, again, None), [Retry(0)] + ([Reenqueue(0)] + []));
  }

  lemma RetryFollows(cfg: Config, s: State, now: Time)
    requires cfg.maxRetries >= 1 && s.now == now && s.workers == map[0 := Failing(Job(0, 0, Some(0), 0))]
    requires s.db.jobs.Keys == {0, 1} && s.db.nextJob == 2
    requires FileIs(s.db, 0, Queued) && ClosedRow(s.db, 0) && QueuedRow(s.db, 1, now)
    ensures var steps := [Retry(0)] + ([Reenqueue(0)] + []);
      Run(cfg, s, steps) && TwoQueued(Exec(cfg, s, steps), now)
  {
    var t := Apply(cfg, s, Retry(0));
    assert t.Of(0).Backoff? && t.Of(0).fileId == 0 && t.db.jobs == s.db.jobs && FileIs(t.db, 0, Queued);
    var u := Apply(cfg, t, Reenqueue(0));
    assert TwoQueued(u, now);
    hide Apply, TwoQueued, ClosedRow, QueuedRow;
    NothingLeft(cfg, u);
    RunCons(cfg, t, Reenqueue(0), []);
    RunCons(cfg, s, Retry(0), [Reenqueue(0)] + []);
  }

  lemma FirstCompletes(cfg: Config, s: State, now: Time, chunks: nat)
    requires TwoQueued(s, now)
    ensures var steps := [Dequeue(1, 1)] + ([Start(1)] + ([Finish(1, Ok(chunks))] + []));
      Run(cfg, s, steps) && OneLeft(Exec(cfg, s, steps), now)
  {
    assert IsHead(s.db, 1, s.now - cfg.timeout);
    var t := Apply(cfg, s, Dequeue(1, 1));
    assert t.Of(1).Claimed? && t.Of(1).job.fileId == 0 && t.Of(1).job.rowId == 1;
    assert t.db == s.db.(jobs := s.db.jobs[1 := t.db.jobs[1]]);
    hide Apply, OneLeft;
    StartAndFinish(cfg, t, now, chunks);
    RunCons(cfg, s, Dequeue(1, 1), [Start(1)] + ([Finish(1, Ok(chunks))] + []));
  }

  lemma StartAndFinish(cfg: Config, s: State, now: Time, chunks: nat)
    requires s.now == now && s.Of(1).Claimed? && s.Of(1).job.fileId == 0 && s.Of(1).job.rowId == 1
    requires s.db.jobs.Keys == {0, 1, 2} && FileIs(s.db, 0, Queued) && ClosedRow(s.db, 0) && QueuedRow(s.db, 2, now)
    ensures var steps := [Start(1)] + ([Finish(1, Ok(chunks))] + []);
      Run(cfg, s, steps) && OneLeft(Exec(cfg, s, steps), now)
  {
    var t := Apply(cfg, s, Start(1));
    assert t.Of(1).Ingesting? && t.Of(1).job == s.Of(1).job && FileIs(t.db, 0, Processing);
    assert t.db.jobs == s.db.jobs[1 := t.db.jobs[1]];
    hide Begin;
    var u := Apply(cfg, t, Finish(1, Ok(chunks)));
    assert u.db.jobs == t.db.jobs[1 := u.db.jobs[1]];
    assert OneLeft(u, now);
    hide Apply, OneLeft, FileIs, QueuedRow, ClosedRow;
    NothingLeft(cfg, u);
    RunCons(cfg, t, Finish(1, Ok(chunks)), []);
    RunCons(cfg, s, Start(1), [Finish(1, Ok(chunks))] + []);
  }

  /** A stale row of a COMPLETED file, at the head of the queue. */
  ghost predicate StaleCompletedHead(cfg: Config, s: State, j: nat) {
    OfCompleted(s.db, j) && s.db.jobs[j].status == Processing && IsHead(s.db, j, s.now - cfg.timeout) && !Orderly(s.db)
  }

  lemma SecondSticks(cfg: Config, s: State, now: Time)
    requires cfg.timeout >= 0.0 && OneLeft(s, now)
    ensures var steps := [Dequeue(1, 2)] + ([Start(1)] + ([Tick(cfg.timeout)] + []));
      Run(cfg, s, steps) && StaleCompletedHead(cfg, Exec(cfg, s, steps), 2)
  {
    assert IsHead(s.db, 2, s.now - cfg.timeout);
    var s1 := Apply(cfg, s, Dequeue(1, 2));
    assert s1.Of(1).Claimed? && s1.Of(1).job.fileId == 0 && s1.Of(1).job.rowId == 2;
    var s2 := Apply(cfg, s1, Start(1));
    assert s2.db == s1.db;
    hide Claim;
    var s3 := Apply(cfg, s2, Tick(cfg.timeout));
    assert Open(s3.db, 2, 0);
    assert IsHead(s3.db, 2, s3.now - cfg.timeout);
    assert StaleCompletedHead(cfg, s3, 2);
    hide Apply, OneLeft, StaleCompletedHead, IsHead;
    NothingLeft(cfg, s3);
    RunCons(cfg, s2, Tick(cfg.timeout), []);
    RunCons(cfg, s1, Start(1), [Tick(cfg.timeout)] + []);
    RunCons(cfg, s, Dequeue(1, 2), [Start(1)] + ([Tick(cfg.timeout)] + []));
  }

  /** Such tables are reached: a first attempt fails, the digest is uploaded again before the
      retry is queued, one of the two jobs completes the file and the other is claimed. */
  lemma CompletedRowReached(cfg: Config, key: Key, upload: SourceFile, again: SourceFile, start: Time,
                            message: string, chunks: nat)
    returns (steps: seq<Step>)
    requires GoodConfig(cfg) && cfg.maxRetries >= 1
    ensures Run(cfg, StartState(start), steps) && StaleCompletedHead(cfg, Exec(cfg, StartState(start), steps), 2)
  {
    var s0 := StartState(start);
    var before := FailureReached(cfg, key, upload, start, message);
    StartSound(cfg, start);
    hide StartState, Exec, Run, LeasedRun, Safe, TwoQueued, OneLeft, StaleCompletedHead;
    RunSafe(cfg, s0, before);
    var s := Exec(cfg, s0, before);
    assert IngestAgreement.FilesIndexed(s.db);
    hide IngestAgreement.Agree, IngestAgreement.FilesIndexed;
    var first := [Upload(key, again, None)] + ([Retry(0)] + ([Reenqueue(0)] + []));
    RestartThenRetry(cfg, s, key, again, start);
    RunAppend(cfg, s0, before, first);
    var second := [Dequeue(1, 1)] + ([Start(1)] + ([Finish(1, Ok(chunks))] + []));
    FirstCompletes(cfg, Exec(cfg, s, first), start, chunks);
    RunAppend(cfg, s0, before + first, second);
    var third := [Dequeue(1, 2)] + ([Start(1)] + ([Tick(cfg.timeout)] + []));
    SecondSticks(cfg, Exec(cfg, s0, before + first + second), start);
    RunAppend(cfg, s0, before + first + second, third);
    steps := before + first + second + third;
  }
}
