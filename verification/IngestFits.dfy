/** The runs that keep the queue safe in every state, exactly: those whose every step fits. */
module IngestFits {
  import opened Options
  import opened IngestRows
  import opened IngestProtocol
  import opened IngestLease
  import IngestAgreement

  /** What could be checked before the step - for most steps, nothing. */
  ghost predicate StepFits(cfg: Config, s: State, step: Step)
    requires Enabled(cfg, s, step)
  {
    match step
    case Upload(key, _, _) => forall f :: Restarts(s.db, key, f) ==> !Busy(s, f)
    case Update(w) => !OverridesHolder(cfg, s, w)
    case ReenqueueAndProcess(_) => false
    case Start(w) => StartFits(cfg, s, w)
    case Finish(w, _) => FinishFits(cfg, s, w)
    case _ => true
  }

  /** A step keeps the invariant exactly when it fits. */
  lemma StepSafeIff(cfg: Config, s: State, step: Step)
    requires GoodConfig(cfg) && Safe(cfg, s) && IngestAgreement.Agree(s) && Enabled(cfg, s, step)
    ensures Safe(cfg, Apply(cfg, s, step)) <==> StepFits(cfg, s, step)
  {
    hide Safe, IngestAgreement.Agree, Apply, StartFits, FinishFits, Restarts, Busy, OverridesHolder;
    match step {
      case Upload(key, upload, mime) => ReuploadSafeIff(cfg, s, key, upload, mime);
      case Update(w) => UpdateFits(cfg, s, w);
      case ReenqueueAndProcess(w) => ImmediateProcessingNeverSafe(cfg, s, w);
      case Start(w) => StartSafeIff(cfg, s, w);
      case Finish(w, outcome) => FinishSafeIff(cfg, s, w, outcome);
      case _ => StepSafe(cfg, s, step);
    }
  }

  lemma UpdateFits(cfg: Config, s: State, w: nat)
    requires GoodConfig(cfg) && Safe(cfg, s) && s.Of(w).Selected?
    ensures Safe(cfg, Apply(cfg, s, Update(w))) <==> !OverridesHolder(cfg, s, w)
  {
    hide Safe, Apply;
    UpdateSafeIff(cfg, s, w);
  }

  ghost predicate FittingRun(cfg: Config, s: State, steps: seq<Step>)
    requires Run(cfg, s, steps)
    decreases |steps|
  {
    steps == [] || (StepFits(cfg, s, steps[0]) && FittingRun(cfg, Apply(cfg, s, steps[0]), steps[1..]))
  }

  /** The invariant holds in every state of the run. */
  ghost predicate AlwaysSafe(cfg: Config, s: State, steps: seq<Step>)
    requires Run(cfg, s, steps)
    decreases |steps|
  {
    Safe(cfg, s) && (steps == [] || AlwaysSafe(cfg, Apply(cfg, s, steps[0]), steps[1..]))
  }

  lemma {:induction false} SafeRunIff(cfg: Config, s: State, steps: seq<Step>)
    requires GoodConfig(cfg) && Safe(cfg, s) && IngestAgreement.Agree(s) && Run(cfg, s, steps)
    ensures AlwaysSafe(cfg, s, steps) <==> FittingRun(cfg, s, steps)
    decreases |steps|
  {
    hide Safe, IngestAgreement.Agree, Apply, StepFits;
    if steps != [] {
      var t := Apply(cfg, s, steps[0]);
      StepSafeIff(cfg, s, steps[0]);
      IngestAgreement.StepKeeps(cfg, s, steps[0]);
      if Safe(cfg, t) { SafeRunIff(cfg, t, steps[1..]); }
    }
  }

  /** Main result: a run from empty tables is safe in all its states exactly when every step
      fits. */
  lemma RunSafeIff(cfg: Config, start: Time, steps: seq<Step>)
    requires GoodConfig(cfg) && Run(cfg, StartState(start), steps)
    ensures AlwaysSafe(cfg, StartState(start), steps) <==> FittingRun(cfg, StartState(start), steps)
  {
    StartSound(cfg, start);
    hide *;
    SafeRunIff(cfg, StartState(start), steps);
  }

  /** Leased runs fit: a worker within its lease always does. */
  lemma {:induction false} LeasedRunsFit(cfg: Config, s: State, steps: seq<Step>)
    requires GoodConfig(cfg) && Safe(cfg, s) && IngestAgreement.Agree(s) && LeasedRun(cfg, s, steps)
    ensures Run(cfg, s, steps) && FittingRun(cfg, s, steps)
    decreases |steps|
  {
    hide Safe, IngestAgreement.Agree, Apply, StepFits, Leased;
    if steps != [] {
      StepSafe(cfg, s, steps[0]);
      StepSafeIff(cfg, s, steps[0]);
      LeasedRunsFit(cfg, Apply(cfg, s, steps[0]), steps[1..]);
    }
  }

  // ---------------------------------------------------------------- an overslept begin

  /** Worker 0 claimed the row and slept; worker 1 recovered it. */
  ghost predicate OversleptBegin(cfg: Config, t: State) {
    && Safe(cfg, t) && t.Of(0).Claimed? && Live(cfg, t.Of(1), t.now)
    && var u := Apply(cfg, t, Start(0));
       && Live(cfg, u.Of(0), u.now) && Live(cfg, u.Of(1), u.now) && u.Of(0).job.rowId == u.Of(1).job.rowId
       && !Safe(cfg, u)
  }

  lemma SecondClaimFollows(cfg: Config, s: State, start: Time)
    requires GoodConfig(cfg) && s.now == start && s.workers == map[0 := Claimed(Job(0, 0, Some(0), 0), start)]
    requires s.db.jobs == map[0 := NewJobRow(0, Some(0), 0, start).(status := Processing, startedAt := Some(start))]
    requires 0 in s.db.files && s.db.files[0].status == Queued
    ensures var steps := [Tick(cfg.timeout)] + ([Dequeue(1, 0)] + []);
      && LeasedRun(cfg, s, steps) && Run(cfg, s, steps)
      && var t := Exec(cfg, s, steps);
         && t.Of(0) == s.Of(0) && t.Of(1) == Claimed(Job(0, 0, Some(0), 1), t.now)
         && 0 in t.db.files && t.db.files[0].status == Queued
  {
    hide LeasedRun, Run, Exec;
    var s1 := Apply(cfg, s, Tick(cfg.timeout));
    assert s1.workers == s.workers && s1.db == s.db && s1.now == start + cfg.timeout;
    assert IsHead(s1.db, 0, s1.now - cfg.timeout);
    var t := Apply(cfg, s1, Dequeue(1, 0));
    hide IsHead;
    assert t.Of(1) == Claimed(Job(0, 0, Some(0), 1), t.now) && t.Of(0) == s.Of(0) && t.db.files == s.db.files;
    NothingLeft(cfg, t);
    LeasedCons(cfg, s1, Dequeue(1, 0), []);
    LeasedCons(cfg, s, Tick(cfg.timeout), [Dequeue(1, 0)] + []);
    hide Claim, Apply;
  }

  lemma SleeperOverrides(cfg: Config, t: State, start: Time)
    requires GoodConfig(cfg) && Safe(cfg, t) && 0 in t.db.files && t.db.files[0].status == Queued
    requires t.Of(0) == Claimed(Job(0, 0, Some(0), 0), start) && t.Of(1) == Claimed(Job(0, 0, Some(0), 1), t.now)
    ensures OversleptBegin(cfg, t)
  {
    var u := Apply(cfg, t, Start(0));
    assert u.Of(1) == t.Of(1) && Live(cfg, u.Of(0), u.now) && Live(cfg, u.Of(1), u.now);
    hide RowsSound, OneOpenJob, OneRetry, CompletedIdle, HoldersOwn, SelectionsPast, Begin;
    assert !OneHolder(cfg, u);
  }

  /** The lease is needed at the begin too: a leased run after which the worker that slept
      since its claim can still begin, and then holds a row that another worker holds. */
  lemma OversleptBeginReached(cfg: Config, key: Key, upload: SourceFile, start: Time) returns (steps: seq<Step>)
    requires GoodConfig(cfg)
    ensures LeasedRun(cfg, StartState(start), steps) && Run(cfg, StartState(start), steps)
    ensures OversleptBegin(cfg, Exec(cfg, StartState(start), steps))
  {
    var s0 := StartState(start);
    ClaimReached(cfg, key, upload, start);
    StartSound(cfg, start);
    var before := [Upload(key, upload, None)] + ([Dequeue(0, 0)] + []);
    var s := Exec(cfg, s0, before);
    assert s.Of(0) == Claimed(Job(0, 0, Some(0), 0), start);
    hide *;
    var after := [Tick(cfg.timeout)] + ([Dequeue(1, 0)] + []);
    SecondClaimFollows(cfg, s, start);
    LeasedAppend(cfg, s0, before, after);
    steps := before + after;
    RunSafe(cfg, s0, steps);
    SleeperOverrides(cfg, Exec(cfg, s0, steps), start);
  }
}
