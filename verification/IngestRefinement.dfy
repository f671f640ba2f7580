/** The worker's `drain` is a stretch of the interleaved protocol, so what is proved of
    leased runs holds of the tables the worker's methods leave. */
module IngestRefinement {
  import opened IngestRows
  import opened IngestWorld
  import opened IngestProtocol
  import opened IngestLease
  import opened IngestRounds

  predicate SameSettings(cfg: Config, env: Env) {
    !env.autoProcess && cfg == Config(env.maxRetries, env.timeout, env.retention)
  }

  /** `steps` is a leased run of worker `v` from `s` that ends idle in the tables and at a
      time no later than the next reading of the clock. */
  ghost predicate Reaches(cfg: Config, s: State, steps: seq<Step>, v: nat, env: Env, w: World) {
    && LeasedRun(cfg, s, steps) && Run(cfg, s, steps)
    && var end := Exec(cfg, s, steps);
       end.db == w.db && end.Of(v).Idle? && end.now <= env.clock(w.ticks)
  }

  lemma ReachesCons(cfg: Config, s: State, step: Step, rest: seq<Step>, v: nat, env: Env, w: World)
    requires Enabled(cfg, s, step) && Leased(cfg, s, step) && Reaches(cfg, Apply(cfg, s, step), rest, v, env, w)
    ensures Reaches(cfg, s, [step] + rest, v, env, w)
  {
    LeasedCons(cfg, s, step, rest);
  }

  lemma ReachesFrom(cfg: Config, s: State, a: seq<Step>, b: seq<Step>, v: nat, env: Env, w: World)
    requires LeasedRun(cfg, s, a) && Run(cfg, s, a) && Reaches(cfg, Exec(cfg, s, a), b, v, env, w)
    ensures Reaches(cfg, s, a + b, v, env, w)
  {
    LeasedAppend(cfg, s, a, b);
  }

  /** Let the clock reach `t`. */
  function Until(s: State, t: Time): Step {
    Tick(t - s.now)
  }

  lemma FailureReaches(cfg: Config, env: Env, w: World, s: State, v: nat, job: Job) returns (steps: seq<Step>)
    requires SameSettings(cfg, env) && GoodEnv(env)
    requires s.db == w.db && s.Of(v) == Failing(job) && s.now <= env.clock(w.ticks)
    ensures Reaches(cfg, s, steps, v, env, HandleFailure(env, w, job))
  {
    hide Requeue, Enqueue, IsHead, Delay;
    var a := job.attempt + 1;
    if a > env.maxRetries || job.fileId !in w.db.files {
      ReachesCons(cfg, s, Retry(v), [], v, env, HandleFailure(env, w, job));
      steps := [Retry(v)] + [];
    } else {
      var s1 := Apply(cfg, s, Until(s, env.clock(w.ticks)));
      var s2 := Apply(cfg, s1, Retry(v));
      assert env.clock(w.ticks) <= env.clock(w.ticks + 1);
      var s3 := Apply(cfg, s2, Until(s2, env.clock(w.ticks + 1)));
      var s4 := Apply(cfg, s3, Reenqueue(v));
      assert s4.db == HandleFailure(env, w, job).db && HandleFailure(env, w, job).ticks == w.ticks + 2;
      var end := HandleFailure(env, w, job);
      ReachesCons(cfg, s3, Reenqueue(v), [], v, env, end);
      assert [Reenqueue(v)] + [] == [Reenqueue(v)];
      ReachesCons(cfg, s2, Until(s2, env.clock(w.ticks + 1)), [Reenqueue(v)], v, env, end);
      steps := [Retry(v)] + ([Until(s2, env.clock(w.ticks + 1))] + [Reenqueue(v)]);
      ReachesCons(cfg, s1, Retry(v), [Until(s2, env.clock(w.ticks + 1))] + [Reenqueue(v)], v, env, end);
      ReachesCons(cfg, s, Until(s, env.clock(w.ticks)), steps, v, env, end);
      steps := [Until(s, env.clock(w.ticks))] + steps;
    }
  }

  lemma ProcessReaches(cfg: Config, env: Env, w: World, s: State, v: nat, job: Job) returns (steps: seq<Step>)
    requires SameSettings(cfg, env) && GoodEnv(env)
    requires s.db == w.db && s.Of(v) == Claimed(job, s.now) && s.now <= env.clock(w.ticks)
    requires env.clock(w.ticks) - s.now < env.timeout
    requires env.clock(w.ticks + 1) - env.clock(w.ticks) < env.timeout
    ensures Reaches(cfg, s, steps, v, env, Process(env, w, job))
  {
    hide Begin, Finalize, HandleFailure, IsHead;
    var t0, t1 := env.clock(w.ticks), env.clock(w.ticks + 1);
    assert t0 <= t1 <= env.clock(w.ticks + 2);
    var s1 := Apply(cfg, s, Until(s, t0));
    assert s1.Of(v) == s.Of(v);
    var s2 := Apply(cfg, s1, Start(v));
    if s2.Of(v).Idle? {
      ReachesCons(cfg, s1, Start(v), [], v, env, Process(env, w, job));
      steps := [Start(v)] + [];
    } else {
      var outcome := env.ingest(w.calls);
      var s3 := Apply(cfg, s2, Until(s2, t1));
      assert s3.Of(v) == Ingesting(job, t0);
      var s4 := Apply(cfg, s3, Finish(v, outcome));
      var end := Process(env, w, job);
      var rest: seq<Step> := [];
      if outcome.Error? {
        var w2 := w.(db := s4.db, ticks := w.ticks + 2, calls := w.calls + 1,
                     attempts := w.attempts + [(job.fileId, job.attempt)]);
        rest := FailureReaches(cfg, env, w2, s4, v, job);
        assert end == HandleFailure(env, w2, job);
      }
      ReachesCons(cfg, s3, Finish(v, outcome), rest, v, env, end);
      ReachesCons(cfg, s2, Until(s2, t1), [Finish(v, outcome)] + rest, v, env, end);
      ReachesCons(cfg, s1, Start(v), [Until(s2, t1)] + ([Finish(v, outcome)] + rest), v, env, end);
      steps := [Start(v)] + ([Until(s2, t1)] + ([Finish(v, outcome)] + rest));
    }
    ReachesCons(cfg, s, Until(s, t0), steps, v, env, Process(env, w, job));
    steps := [Until(s, t0)] + steps;
  }

  /** Between claiming a row and its last write to it, the worker never lets a timeout pass
      without a write.  The backoff sleeps and the time between rounds are not limited. */
  predicate Prompt(env: Env, ticks: nat) {
    Wait(env, ticks) < env.timeout && Wait(env, ticks + 1) < env.timeout
  }

  /** A round with prompt writes is a leased run that ends in the tables the round computes. */
  lemma RoundIsLeasedRun(cfg: Config, env: Env, w: World, s: State, v: nat, id: nat) returns (steps: seq<Step>)
    requires SameSettings(cfg, env) && GoodEnv(env)
    requires s.db == w.db && s.Of(v).Idle? && s.now <= env.clock(w.ticks)
    requires RoundOk(env, w, id) && Prompt(env, w.ticks)
    ensures Reaches(cfg, s, steps, v, env, AfterRound(env, w, id))
  {
    hide Claim, Process, IsHead;
    var t0 := env.clock(w.ticks);
    HeadIsRow(w.db, id, t0 - env.timeout);
    var (db1, job) := Claim(w.db, id, w.db.jobs[id].status, t0);
    var s0 := Apply(cfg, s, Until(s, t0));
    assert s0.Of(v) == s.Of(v);
    var s1 := Apply(cfg, s0, Dequeue(v, id));
    assert s1.Of(v) == Claimed(job.value, t0);
    assert t0 <= env.clock(w.ticks + 1);
    var w1 := w.(db := db1, ticks := w.ticks + 1);
    var rest := ProcessReaches(cfg, env, w1, s1, v, job.value);
    ReachesCons(cfg, s0, Dequeue(v, id), rest, v, env, AfterRound(env, w, id));
    steps := [Dequeue(v, id)] + rest;
    ReachesCons(cfg, s, Until(s, t0), steps, v, env, AfterRound(env, w, id));
    steps := [Until(s, t0)] + steps;
  }

  lemma HeadIsRow(db: Db, id: nat, staleBefore: Time)
    requires IsHead(db, id, staleBefore)
    ensures id in db.jobs
  {
  }

  ghost predicate AllPrompt(env: Env, w: World, ids: seq<nat>) {
    ids == []
    || (AllPrompt(env, w, ids[..|ids| - 1]) && Prompt(env, AfterRounds(env, w, ids[..|ids| - 1]).ticks))
  }

  /** Main result: all the rounds of a drain, with prompt writes in each, are one leased run
      that ends in the tables the drain leaves. */
  lemma {:induction false} DrainIsLeasedRun(cfg: Config, env: Env, w: World, s: State, v: nat, ids: seq<nat>)
    returns (steps: seq<Step>)
    requires SameSettings(cfg, env) && GoodEnv(env)
    requires s.db == w.db && s.Of(v).Idle? && s.now <= env.clock(w.ticks)
    requires RoundsOk(env, w, ids) && AllPrompt(env, w, ids)
    ensures Reaches(cfg, s, steps, v, env, AfterRounds(env, w, ids))
  {
    hide RoundOk, AfterRound, Prompt, GoodEnv;
    steps := [];
    if ids != [] {
      var n := |ids| - 1;
      steps := DrainIsLeasedRun(cfg, env, w, s, v, ids[..n]);
      var mid := AfterRounds(env, w, ids[..n]);
      var rest := RoundIsLeasedRun(cfg, env, mid, Exec(cfg, s, steps), v, ids[n]);
      ReachesFrom(cfg, s, steps, rest, v, env, AfterRounds(env, w, ids));
      steps := steps + rest;
    }
  }

  /** So a drain that starts where a leased run from empty tables ended leaves tables that
      such a run reaches too - with all that is proved of those. */
  lemma DrainedTablesReached(cfg: Config, env: Env, start: Time, before: seq<Step>, w: World, v: nat, ids: seq<nat>)
    returns (steps: seq<Step>)
    requires SameSettings(cfg, env) && GoodEnv(env)
    requires LeasedRun(cfg, StartState(start), before) && Run(cfg, StartState(start), before)
    requires var s := Exec(cfg, StartState(start), before);
      s.db == w.db && s.Of(v).Idle? && s.now <= env.clock(w.ticks)
    requires RoundsOk(env, w, ids) && AllPrompt(env, w, ids)
    ensures Reaches(cfg, StartState(start), steps, v, env, AfterRounds(env, w, ids))
  {
    var s := Exec(cfg, StartState(start), before);
    hide *;
    var rest := DrainIsLeasedRun(cfg, env, w, s, v, ids);
    steps := before + rest;
    ReachesFrom(cfg, StartState(start), before, rest, v, env, AfterRounds(env, w, ids));
  }
}
