/** What the guarded UPDATE protects, and what it does not.

    A QUEUED row is claimed at most once in a run, even when SELECT and UPDATE of
    all workers interleave.  A stale PROCESSING row is protected only when nobody
    wrote it between the SELECT and the UPDATE. */
module IngestClaims {
  import opened Options
  import opened IngestRows
  import opened IngestProtocol

  predicate Waiting(db: Db, j: nat) {
    j in db.jobs && db.jobs[j].status == Queued
  }

  /** The row existed once and is not queued (any more). */
  predicate Past(db: Db, j: nat) {
    j < db.nextJob && !Waiting(db, j)
  }

  /** The row a claiming statement aims at. */
  function Target(s: State, step: Step): Option<nat> {
    match step
    case Dequeue(_, id) => Some(id)
    case Update(w) => if s.Of(w).Selected? then Some(s.Of(w).rowId) else None
    case _ => None
  }

  /** The step claims row `j`: afterwards its worker holds the row. */
  ghost predicate Claims(cfg: Config, s: State, step: Step, j: nat)
    requires Enabled(cfg, s, step)
  {
    Target(s, step) == Some(j) && j in s.db.jobs && Apply(cfg, s, step).Of(step.w).Claimed?
  }

  ghost predicate ClaimsQueued(cfg: Config, s: State, step: Step, j: nat)
    requires Enabled(cfg, s, step)
  {
    Claims(cfg, s, step, j) && s.db.jobs[j].status == Queued
  }

  ghost predicate Recovers(cfg: Config, s: State, step: Step, j: nat)
    requires Enabled(cfg, s, step)
  {
    Claims(cfg, s, step, j) && s.db.jobs[j].status == Processing
  }

  ghost function QueuedClaims(cfg: Config, s: State, steps: seq<Step>, j: nat): nat
    requires Run(cfg, s, steps)
    decreases |steps|
  {
    if steps == [] then 0
    else (if ClaimsQueued(cfg, s, steps[0], j) then 1 else 0)
         + QueuedClaims(cfg, Apply(cfg, s, steps[0]), steps[1..], j)
  }

  // ------------------------------------------------ queued rows are claimed once

  // ------------------------------------------------------- what a step writes

  function ClaimTime(s: State, step: Step): Time {
    if step.Update? && s.Of(step.w).Selected? then s.Of(step.w).at else s.now
  }

  /** Every row is rewritten at `at` and no longer queued, created at `at`, or untouched. */
  ghost predicate RowsWritten(a: Db, b: Db, at: Time) {
    && a.nextJob <= b.nextJob && RowIds(b)
    && forall j :: j in b.jobs ==>
         (b.jobs[j].updatedAt == at && (j in a.jobs || (a.nextJob <= j)) && (j in a.jobs ==> b.jobs[j].status != Queued))
         || (j in a.jobs && b.jobs[j] == a.jobs[j])
  }

  lemma RegisterWrites(db: Db, key: Key, upload: SourceFile, mime: Option<string>, now: Time)
    requires RowIds(db)
    ensures RowsWritten(db, Register(db, key, upload, mime, now), now)
  {
    var (db1, d) := RegisterDoc(db, key, mime);
    assert db1.jobs == db.jobs && db1.nextJob == db.nextJob;
    hide RegisterDoc;
    var (db2, f, queued) := RegisterFile(db1, key, upload, d, now);
    assert db2.jobs == db.jobs && db2.nextJob == db.nextJob;
    hide RegisterFile;
  }

  lemma MaintainWrites(db: Db, now: Time, retention: Time, timeout: Time)
    requires RowIds(db)
    ensures RowsWritten(db, Maintain(db, now, retention, timeout), now)
  {
  }

  lemma ClaimWrites(db: Db, id: nat, observed: Status, now: Time)
    requires RowIds(db)
    ensures RowsWritten(db, Claim(db, id, observed, now).0, now)
  {
  }

  lemma BeginWrites(db: Db, job: Job, now: Time)
    requires RowIds(db)
    ensures RowsWritten(db, Begin(db, job, now).0, now)
  {
  }

  lemma FinalizeWrites(db: Db, job: Job, outcome: Outcome, now: Time)
    requires RowIds(db)
    ensures RowsWritten(db, Finalize(db, job, outcome, now), now)
  {
  }

  lemma RetryWrites(db: Db, fileId: nat, docId: Option<nat>, attempt: nat, now: Time)
    requires RowIds(db)
    ensures RowsWritten(db, Requeue(db, fileId, attempt, now), now)
    ensures RowsWritten(db, Enqueue(db, fileId, docId, attempt, now), now)
  {
  }

  lemma NothingWritten(db: Db, at: Time)
    requires RowIds(db)
    ensures RowsWritten(db, db, at)
  {
  }

  lemma StepWrites(cfg: Config, s: State, step: Step)
    requires RowIds(s.db) && Enabled(cfg, s, step)
    ensures RowsWritten(s.db, Apply(cfg, s, step).db, ClaimTime(s, step))
  {
    assert step.Dequeue? ==> step.id in s.db.jobs;
    hide Register, Maintain, IsHead, Claim, Begin, Finalize, Requeue, Enqueue, RowsWritten, RowIds;
    NothingWritten(s.db, s.now);
    match step {
      case Upload(key, upload, mime) => RegisterWrites(s.db, key, upload, mime, s.now);
      case Dequeue(_, id) => ClaimWrites(s.db, id, s.db.jobs[id].status, s.now);
      case Update(w) => ClaimWrites(s.db, s.Of(w).rowId, s.Of(w).observed, s.Of(w).at);
      case Start(w) => BeginWrites(s.db, s.Of(w).job, s.now);
      case Finish(w, outcome) => FinalizeWrites(s.db, s.Of(w).job, outcome, s.now);
      case Retry(w) => RetryWrites(s.db, s.Of(w).job.fileId, None, s.Of(w).job.attempt + 1, s.now);
      case Reenqueue(w) => RetryWrites(s.db, s.Of(w).fileId, s.Of(w).docId, s.Of(w).attempt, s.now);
      case ReenqueueAndProcess(w) => RetryWrites(s.db, s.Of(w).fileId, s.Of(w).docId, s.Of(w).attempt, s.now);
      case Maintenance => MaintainWrites(s.db, s.now, cfg.retention, cfg.timeout);
      case _ =>
    }
  }

  /** What any commit does to the job ids. */
  ghost predicate Monotone(a: Db, b: Db) {
    && a.nextJob <= b.nextJob && RowIds(b)
    && forall j :: Past(a, j) ==> Past(b, j)
  }

  lemma WrittenIsMonotone(a: Db, b: Db, at: Time)
    requires RowsWritten(a, b, at)
    ensures Monotone(a, b)
  {
  }

  lemma StepMonotone(cfg: Config, s: State, step: Step)
    requires RowIds(s.db) && Enabled(cfg, s, step)
    ensures Monotone(s.db, Apply(cfg, s, step).db)
  {
    hide *;
    StepWrites(cfg, s, step);
    WrittenIsMonotone(s.db, Apply(cfg, s, step).db, ClaimTime(s, step));
  }

  lemma {:induction false} PastForever(cfg: Config, s: State, steps: seq<Step>, j: nat)
    requires RowIds(s.db) && Past(s.db, j) && Run(cfg, s, steps)
    ensures RowIds(Exec(cfg, s, steps).db) && Past(Exec(cfg, s, steps).db, j)
    ensures QueuedClaims(cfg, s, steps, j) == 0
    decreases |steps|
  {
    if steps != [] {
      StepMonotone(cfg, s, steps[0]);
      PastForever(cfg, Apply(cfg, s, steps[0]), steps[1..], j);
    }
  }

  lemma {:induction false} QueuedClaimedOnce(cfg: Config, s: State, steps: seq<Step>, j: nat)
    requires RowIds(s.db) && Run(cfg, s, steps)
    ensures QueuedClaims(cfg, s, steps, j) <= 1
    decreases |steps|
  {
    if steps != [] {
      var t := Apply(cfg, s, steps[0]);
      StepMonotone(cfg, s, steps[0]);
      if ClaimsQueued(cfg, s, steps[0], j) {
        assert Past(t.db, j);
        PastForever(cfg, t, steps[1..], j);
      } else {
        QueuedClaimedOnce(cfg, t, steps[1..], j);
      }
    }
  }

  /** Once a queued row is taken, every worker that had selected it loses, however
      much later it updates, and a loser commits nothing. */
  lemma LateClaimChangesNothing(cfg: Config, s: State, steps: seq<Step>, w: nat, j: nat, at: Time)
    requires RowIds(s.db) && Past(s.db, j) && Run(cfg, s, steps)
    requires Exec(cfg, s, steps).Of(w) == Selected(j, Queued, at)
    ensures var t := Exec(cfg, s, steps);
      Apply(cfg, t, Update(w)) == t.With(t.db, w, Idle)
  {
    PastForever(cfg, s, steps, j);
  }

  // ----------------------------------------------------- spacing of recoveries

  /** No one has written the stale row since its cutoff was computed. */
  predicate Rechecked(cfg: Config, s: State, step: Step) {
    step.Update? && s.Of(step.w).Selected? ==>
      var sel := s.Of(step.w);
      sel.rowId in s.db.jobs && sel.observed == Processing && s.db.jobs[sel.rowId].status == Processing ==>
        s.db.jobs[sel.rowId].updatedAt <= sel.at - cfg.timeout
  }

  ghost predicate RecheckedRun(cfg: Config, s: State, steps: seq<Step>)
    requires Run(cfg, s, steps)
    decreases |steps|
  {
    steps == [] || (Rechecked(cfg, s, steps[0]) && RecheckedRun(cfg, Apply(cfg, s, steps[0]), steps[1..]))
  }

  /** The worker's selection lies in the past, and a queued row it selected is unwritten. */
  predicate SelectionClocked(s: State, w: nat) {
    s.Of(w).Selected? ==>
      var sel := s.Of(w);
      sel.at <= s.now && sel.rowId < s.db.nextJob && (sel.observed == Queued || sel.observed == Processing)
      && (sel.observed == Queued && Waiting(s.db, sel.rowId) ==> s.db.jobs[sel.rowId].updatedAt <= sel.at)
  }

  /** Clock sanity: rows and selections lie in the past, a selected queued row is unwritten. */
  ghost predicate Clocked(s: State) {
    && RowIds(s.db)
    && (forall j :: j in s.db.jobs ==> s.db.jobs[j].updatedAt <= s.now)
    && (forall w :: SelectionClocked(s, w))
  }

  /** Every surviving write of row `j` is at `floor` or later. */
  predicate Floor(s: State, j: nat, floor: Time) {
    && j < s.db.nextJob && floor <= s.now
    && (j in s.db.jobs ==> floor <= s.db.jobs[j].updatedAt)
  }

  lemma WrittenClocked(a: Db, b: Db, at: Time, now: Time)
    requires RowsWritten(a, b, at) && at <= now && forall j :: j in a.jobs ==> a.jobs[j].updatedAt <= now
    ensures RowIds(b) && forall j :: j in b.jobs ==> b.jobs[j].updatedAt <= now
  {
  }

  lemma SelectionStill(a: Db, b: Db, at: Time, now: Time, sel: Worker)
    requires RowsWritten(a, b, at) && sel.Selected? && sel.rowId < a.nextJob
    requires sel.observed == Queued && Waiting(a, sel.rowId) ==> a.jobs[sel.rowId].updatedAt <= sel.at
    ensures sel.rowId < b.nextJob
    ensures sel.observed == Queued && Waiting(b, sel.rowId) ==> b.jobs[sel.rowId].updatedAt <= sel.at
  {
  }

  lemma Selections(cfg: Config, s: State, step: Step, w: nat)
    requires Enabled(cfg, s, step) && Apply(cfg, s, step).Of(w).Selected?
    ensures s.now <= Apply(cfg, s, step).now
    ensures Apply(cfg, s, step).Of(w) == s.Of(w)
      || (step.Select? && step.w == w && step.id in s.db.jobs && Apply(cfg, s, step).db == s.db
          && Apply(cfg, s, step).Of(w) == Selected(step.id, s.db.jobs[step.id].status, s.now)
          && (s.db.jobs[step.id].status == Queued || s.db.jobs[step.id].status == Processing))
  {
    if step.Select? { assert Eligible(s.db.jobs[step.id], s.now - cfg.timeout); }
    hide Register, Maintain, Claim, Begin, Finalize, Requeue, Enqueue, IsHead;
  }

  lemma ClaimTimePast(cfg: Config, s: State, step: Step)
    requires Clocked(s) && Enabled(cfg, s, step)
    ensures ClaimTime(s, step) <= s.now <= Apply(cfg, s, step).now
  {
    if step.Update? { assert SelectionClocked(s, step.w); }
    hide Register, Maintain, Claim, Begin, Finalize, Requeue, Enqueue, IsHead;
  }

  lemma StepClocked(cfg: Config, s: State, step: Step)
    requires Clocked(s) && Enabled(cfg, s, step)
    ensures Clocked(Apply(cfg, s, step))
  {
    var t := Apply(cfg, s, step);
    hide Apply, Enabled, ClaimTime, RowsWritten;
    StepWrites(cfg, s, step);
    ClaimTimePast(cfg, s, step);
    WrittenClocked(s.db, t.db, ClaimTime(s, step), t.now);
    forall w ensures SelectionClocked(t, w) {
      if t.Of(w).Selected? {
        Selections(cfg, s, step, w);
        if t.Of(w) == s.Of(w) {
          assert SelectionClocked(s, w);
          SelectionStill(s.db, t.db, ClaimTime(s, step), t.now, s.Of(w));
        }
      }
    }
  }

  lemma StepFloor(cfg: Config, s: State, step: Step, j: nat, floor: Time)
    requires GoodConfig(cfg) && Clocked(s) && Enabled(cfg, s, step) && Rechecked(cfg, s, step)
    requires Floor(s, j, floor)
    ensures Floor(Apply(cfg, s, step), j, floor)
  {
    if !step.Update? {
      StepWrites(cfg, s, step);
      hide Register, Maintain, IsHead, Claim, Begin, Finalize, Requeue, Enqueue;
    } else {
      assert SelectionClocked(s, step.w);
    }
  }

  lemma {:induction false} RunFloor(cfg: Config, s: State, steps: seq<Step>, j: nat, floor: Time)
    requires GoodConfig(cfg) && Clocked(s) && Run(cfg, s, steps) && RecheckedRun(cfg, s, steps)
    requires Floor(s, j, floor)
    ensures Clocked(Exec(cfg, s, steps)) && Floor(Exec(cfg, s, steps), j, floor)
    decreases |steps|
  {
    if steps != [] {
      StepClocked(cfg, s, steps[0]);
      StepFloor(cfg, s, steps[0], j, floor);
      RunFloor(cfg, Apply(cfg, s, steps[0]), steps[1..], j, floor);
    }
  }

  /** Between any claim of a row and a later recovery of it, at least the processing
      timeout passes - in every run whose updates find the selected stale row unwritten. */
  lemma RecoveriesSpaced(cfg: Config, s: State, first: Step, between: seq<Step>, last: Step, j: nat)
    requires GoodConfig(cfg) && Clocked(s)
    requires Enabled(cfg, s, first) && Claims(cfg, s, first, j) && Rechecked(cfg, s, first)
    requires var t := Apply(cfg, s, first);
      && Run(cfg, t, between) && RecheckedRun(cfg, t, between)
      && Enabled(cfg, Exec(cfg, t, between), last) && Rechecked(cfg, Exec(cfg, t, between), last)
      && Recovers(cfg, Exec(cfg, t, between), last, j)
    ensures var u := Exec(cfg, Apply(cfg, s, first), between);
      ClaimTime(u, last) - ClaimTime(s, first) >= cfg.timeout
  {
    var t := Apply(cfg, s, first);
    StepClocked(cfg, s, first);
    assert Floor(t, j, ClaimTime(s, first));
    RunFloor(cfg, t, between, j, ClaimTime(s, first));
  }

  /** With SELECT and UPDATE in one transaction nothing is ever left to recheck. */
  lemma {:induction false} AtomicRunsAreRechecked(cfg: Config, s: State, steps: seq<Step>)
    requires Run(cfg, s, steps)
    requires forall w :: w in s.workers ==> !s.workers[w].Selected?
    requires forall i :: 0 <= i < |steps| ==> !steps[i].Select?
    ensures RecheckedRun(cfg, s, steps)
    decreases |steps|
  {
    if steps != [] {
      var t := Apply(cfg, s, steps[0]);
      hide Register, Maintain, IsHead, Claim, Begin, Finalize, Requeue, Enqueue;
      forall w | w in t.workers ensures !t.workers[w].Selected? {
        assert w in s.workers ==> !s.workers[w].Selected?;
      }
      AtomicRunsAreRechecked(cfg, t, steps[1..]);
    }
  }

  // --------------------------------------------------- the two-step form is not enough

  /** One row, claimed once and then abandoned for a full timeout. */
  ghost predicate AbandonedRow(cfg: Config, s: State) {
    && s.db.jobs.Keys == {0} && s.Of(1).Idle? && s.Of(2).Idle?
    && var row := s.db.jobs[0];
       && row.jobType == INGEST && row.status == Processing && row.attempt == 0
       && row.payload.fileId == Some(0) && row.payload.docId == Some(0)
       && row.updatedAt <= s.now - cfg.timeout
  }

  lemma AbandonedRowReached(cfg: Config, key: Key, upload: SourceFile, start: Time)
    requires GoodConfig(cfg)
    ensures var steps := [Upload(key, upload, None), Dequeue(0, 0), Tick(cfg.timeout)];
      Run(cfg, StartState(start), steps) && AbandonedRow(cfg, Exec(cfg, StartState(start), steps))
  {
    var s0 := StartState(start);
    var s1 := Apply(cfg, s0, Upload(key, upload, None));
    assert s1.db.jobs == map[0 := NewJobRow(0, Some(0), 0, start)];
    var s2 := Apply(cfg, s1, Dequeue(0, 0));
    RunCons(cfg, s2, Tick(cfg.timeout), []);
    RunCons(cfg, s1, Dequeue(0, 0), [Tick(cfg.timeout)]);
    RunCons(cfg, s0, Upload(key, upload, None), [Dequeue(0, 0), Tick(cfg.timeout)]);
  }

  lemma BothUpdate(cfg: Config, s: State)
    requires GoodConfig(cfg) && AbandonedRow(cfg, s)
    ensures var steps := [Select(1, 0), Select(2, 0), Update(1), Update(2)];
      && Run(cfg, s, steps)
      && var t := Exec(cfg, s, steps);
         && t.Of(1) == Claimed(Job(0, 0, Some(0), 1), s.now)
         && t.Of(2) == Claimed(Job(0, 0, Some(0), 2), s.now)
         && t.now == s.now && 0 in t.db.jobs && t.db.jobs[0].attempt == 2
  {
    var s1 := Apply(cfg, s, Select(1, 0));
    var s2 := Apply(cfg, s1, Select(2, 0));
    var s3 := Apply(cfg, s2, Update(1));
    RunCons(cfg, s3, Update(2), []);
    RunCons(cfg, s2, Update(1), [Update(2)]);
    RunCons(cfg, s1, Select(2, 0), [Update(1), Update(2)]);
    RunCons(cfg, s, Select(1, 0), [Select(2, 0), Update(1), Update(2)]);
  }

  /** Two workers select the same stale row, then both update it: both statements match
      the status, so the row is recovered twice at one instant and has two holders. */
  lemma TwoStepRecoversTwice(cfg: Config, key: Key, upload: SourceFile, start: Time) returns (steps: seq<Step>)
    requires GoodConfig(cfg)
    ensures Run(cfg, StartState(start), steps)
    ensures var t := Exec(cfg, StartState(start), steps);
      && t.Of(1) == Claimed(Job(0, 0, Some(0), 1), t.now)
      && t.Of(2) == Claimed(Job(0, 0, Some(0), 2), t.now)
      && 0 in t.db.jobs && t.db.jobs[0].attempt == 2
  {
    var before := [Upload(key, upload, None), Dequeue(0, 0), Tick(cfg.timeout)];
    var race := [Select(1, 0), Select(2, 0), Update(1), Update(2)];
    hide Run, Exec, AbandonedRow, StartState;
    AbandonedRowReached(cfg, key, upload, start);
    BothUpdate(cfg, Exec(cfg, StartState(start), before));
    RunAppend(cfg, StartState(start), before, race);
    steps := before + race;
  }
}
