/** Any number of workers interleaving the commits of `IngestRows` (database-queue mode).

    A worker crash may fall between any two commits; it keeps the tables and drops
    the worker's memory.  The claim exists in two forms: `Dequeue` is SELECT and
    UPDATE in one transaction, `Select`/`Update` are the same two statements
    interleaved with everyone else's. */
module IngestProtocol {
  import opened Options
  import opened IngestRows

  datatype Config = Config(maxRetries: nat, timeout: Time, retention: Time)

  ghost predicate GoodConfig(cfg: Config) {
    cfg.timeout > 0.0 && cfg.retention > 0.0
  }

  /** `lease` is the time of the worker's last write to its job row. */
  datatype Worker =
    | Idle
    | Selected(rowId: nat, observed: Status, at: Time)
    | Claimed(job: Job, lease: Time)
    | Ingesting(job: Job, lease: Time)
    | Failing(job: Job)
    | Backoff(fileId: nat, docId: Option<nat>, attempt: nat)

  datatype State = State(db: Db, workers: map<nat, Worker>, now: Time) {
    function Of(w: nat): Worker {
      if w in workers then workers[w] else Idle
    }

    function With(db': Db, w: nat, worker: Worker): State {
      State(db', workers[w := worker], now)
    }
  }

  datatype Step =
    | Upload(key: Key, upload: SourceFile, mime: Option<string>)
    | Dequeue(w: nat, id: nat)
    | Select(w: nat, id: nat)
    | Update(w: nat)
    | Start(w: nat)
    | Finish(w: nat, outcome: Outcome)
    | Retry(w: nat)
    | Reenqueue(w: nat)
    | ReenqueueAndProcess(w: nat)
    | Crash(w: nat)
    | Maintenance
    | Tick(elapsed: Time)

  ghost predicate Enabled(cfg: Config, s: State, step: Step) {
    match step
    case Upload(_, _, _) => true
    case Dequeue(w, id) => s.Of(w).Idle? && IsHead(s.db, id, s.now - cfg.timeout)
    case Select(w, id) => s.Of(w).Idle? && IsHead(s.db, id, s.now - cfg.timeout)
    case Update(w) => s.Of(w).Selected?
    case Start(w) => s.Of(w).Claimed?
    case Finish(w, _) => s.Of(w).Ingesting?
    case Retry(w) => s.Of(w).Failing?
    case Reenqueue(w) => s.Of(w).Backoff?
    case ReenqueueAndProcess(w) => s.Of(w).Backoff?
    case Crash(w) => true
    case Maintenance => true
    case Tick(elapsed) => elapsed >= 0.0
  }

  function Holding(job: Option<Job>, at: Time): Worker {
    if job.Some? then Claimed(job.value, at) else Idle
  }

  ghost function Apply(cfg: Config, s: State, step: Step): State
    requires Enabled(cfg, s, step)
  {
    match step
    case Upload(key, upload, mime) => s.(db := Register(s.db, key, upload, mime, s.now))
    case Dequeue(w, id) =>
      var (db, job) := Claim(s.db, id, s.db.jobs[id].status, s.now);
      s.With(db, w, Holding(job, s.now))
    case Select(w, id) => s.With(s.db, w, Selected(id, s.db.jobs[id].status, s.now))
    case Update(w) =>
      var sel := s.Of(w);
      var (db, job) := Claim(s.db, sel.rowId, sel.observed, sel.at);
      s.With(db, w, Holding(job, sel.at))
    case Start(w) =>
      var job := s.Of(w).job;
      var (db, proceed) := Begin(s.db, job, s.now);
      s.With(db, w, if proceed then Ingesting(job, s.now) else Idle)
    case Finish(w, outcome) =>
      var job := s.Of(w).job;
      s.With(Finalize(s.db, job, outcome, s.now), w, if outcome.Ok? then Idle else Failing(job))
    case Retry(w) =>
      var job := s.Of(w).job;
      if job.attempt + 1 > cfg.maxRetries || job.fileId !in s.db.files then
        s.With(s.db, w, Idle)
      else
        s.With(Requeue(s.db, job.fileId, job.attempt + 1, s.now), w,
               Backoff(job.fileId, s.db.files[job.fileId].docId, job.attempt + 1))
    case Reenqueue(w) =>
      var b := s.Of(w);
      s.With(Enqueue(s.db, b.fileId, b.docId, b.attempt, s.now), w, Idle)
    case ReenqueueAndProcess(w) =>
      var b := s.Of(w);
      s.With(Enqueue(s.db, b.fileId, b.docId, b.attempt, s.now), w,
             Claimed(Job(s.db.nextJob, b.fileId, b.docId, b.attempt), s.now))
    case Crash(w) => s.With(s.db, w, Idle)
    case Maintenance => s.(db := Maintain(s.db, s.now, cfg.retention, cfg.timeout))
    case Tick(elapsed) => s.(now := s.now + elapsed)
  }

  // ------------------------------------------------------------------- runs

  ghost predicate Run(cfg: Config, s: State, steps: seq<Step>)
    decreases |steps|
  {
    steps == [] ||
    (Enabled(cfg, s, steps[0]) && Run(cfg, Apply(cfg, s, steps[0]), steps[1..]))
  }

  ghost function Exec(cfg: Config, s: State, steps: seq<Step>): State
    requires Run(cfg, s, steps)
    decreases |steps|
  {
    if steps == [] then s else Exec(cfg, Apply(cfg, s, steps[0]), steps[1..])
  }

  lemma {:induction false} RunAppend(cfg: Config, s: State, a: seq<Step>, b: seq<Step>)
    requires Run(cfg, s, a) && Run(cfg, Exec(cfg, s, a), b)
    ensures Run(cfg, s, a + b) && Exec(cfg, s, a + b) == Exec(cfg, Exec(cfg, s, a), b)
    decreases |a|
  {
    if a == [] {
      assert a + b == b;
    } else {
      assert (a + b)[1..] == a[1..] + b;
      RunAppend(cfg, Apply(cfg, s, a[0]), a[1..], b);
    }
  }

  lemma RunCons(cfg: Config, s: State, step: Step, rest: seq<Step>)
    requires Enabled(cfg, s, step) && Run(cfg, Apply(cfg, s, step), rest)
    ensures Run(cfg, s, [step] + rest)
    ensures Exec(cfg, s, [step] + rest) == Exec(cfg, Apply(cfg, s, step), rest)
  {
    assert ([step] + rest)[1..] == rest;
  }

  ghost function StartState(now: Time): State {
    State(EMPTY_DB, map[], now)
  }
}
