/** The make-style pipeline runner: staleness by modification time, re-asked per step.

    A step's content is any function `make` of its name, of the moment it ran (training
    is not repeatable) and of the contents of its declared upstream outputs.  Every write
    gets a later modification time than all before; a step that fails or is interrupted
    leaves its old output or none. */
module RerankerRunner {
  import opened Options

  datatype Step = Step(name: string, produces: string, dependsOn: seq<string>)

  datatype Artifact = Artifact(content: string, mtime: nat)

  datatype Disk = Disk(files: map<string, Artifact>, clock: nat)

  type Make = (string, nat, seq<Option<string>>) -> string

  datatype Fate = Succeeds | Fails(outputRemoved: bool)

  /** `executed` holds plan positions; `completed` is false when a step failed. */
  datatype Outcome = Outcome(disk: Disk, executed: set<nat>, completed: bool)

  // ------------------------------------------------------------ plan lookups

  /** `{s.name: s for s in plan}`: the last step of a name wins. */
  function ByName(plan: seq<Step>): map<string, Step> {
    if plan == [] then map[]
    else ByName(plan[..|plan| - 1])[plan[|plan| - 1].name := plan[|plan| - 1]]
  }

  ghost predicate WellFormed(plan: seq<Step>) {
    && (forall i, j :: 0 <= i < j < |plan| ==> plan[i].name != plan[j].name)
    && (forall i, j :: 0 <= i < j < |plan| ==> plan[i].produces != plan[j].produces)
    && (forall i, j, k ::
          0 <= i < |plan| && 0 <= j < |plan| && 0 <= k < |plan[i].dependsOn| && plan[j].name == plan[i].dependsOn[k] ==>
            j < i)
  }

  lemma {:induction false} ByNameFinds(plan: seq<Step>)
    requires forall i, j :: 0 <= i < j < |plan| ==> plan[i].name != plan[j].name
    ensures forall i :: 0 <= i < |plan| ==> plan[i].name in ByName(plan) && ByName(plan)[plan[i].name] == plan[i]
    ensures forall n :: n in ByName(plan) ==> exists i :: 0 <= i < |plan| && plan[i].name == n
  {
    if plan != [] {
      var init := plan[..|plan| - 1];
      ByNameFinds(init);
      forall n | n in ByName(plan) ensures exists i :: 0 <= i < |plan| && plan[i].name == n {
        if n in ByName(init) {
          var i :| 0 <= i < |init| && init[i].name == n;
          assert plan[i].name == n;
        } else {
          assert plan[|plan| - 1].name == n;
        }
      }
    }
  }

  /** The upstream step behind the `k`-th dependency of step `i`: an earlier one. */
  lemma Upstream(plan: seq<Step>, i: nat, k: nat) returns (d: nat)
    requires WellFormed(plan) && i < |plan| && k < |plan[i].dependsOn| && plan[i].dependsOn[k] in ByName(plan)
    ensures d < i && plan[d].name == plan[i].dependsOn[k] && ByName(plan)[plan[i].dependsOn[k]] == plan[d]
  {
    ByNameFinds(plan);
    hide ByName;
    d :| 0 <= d < |plan| && plan[d].name == plan[i].dependsOn[k];
  }

  lemma OutputsDiffer(plan: seq<Step>, i: nat, j: nat)
    requires WellFormed(plan) && i < |plan| && j < |plan| && i != j
    ensures plan[i].produces != plan[j].produces
  {
    if i < j { assert plan[i].produces != plan[j].produces; } else { assert plan[j].produces != plan[i].produces; }
  }

  // ------------------------------------------------------------- staleness

  /** The dependency is declared in the plan, and its output exists and is newer. */
  predicate NewerDep(files: map<string, Artifact>, byName: map<string, Step>, dep: string, mtime: nat) {
    dep in byName && byName[dep].produces in files && files[byName[dep].produces].mtime > mtime
  }

  predicate Stale(files: map<string, Artifact>, byName: map<string, Step>, step: Step) {
    step.produces !in files ||
    exists k :: 0 <= k < |step.dependsOn|
                && NewerDep(files, byName, step.dependsOn[k], files[step.produces].mtime)
  }

  method IsStale(files: map<string, Artifact>, byName: map<string, Step>, step: Step) returns (stale: bool)
    ensures stale == Stale(files, byName, step)
  {
    if step.produces !in files { return true; }
    var mtime := files[step.produces].mtime;
    for k := 0 to |step.dependsOn|
      invariant forall i :: 0 <= i < k ==> !NewerDep(files, byName, step.dependsOn[i], mtime)
    {
      var dep := step.dependsOn[k];
      if dep in byName {
        var upstream := byName[dep].produces;
        if upstream in files && files[upstream].mtime > mtime {
          return true;
        }
      }
    }
    return false;
  }

  /** Start-of-run forecast: the positions of the steps that would run now. */
  function Pending(plan: seq<Step>, files: map<string, Artifact>, force: bool): set<nat> {
    set i | 0 <= i < |plan| && (force || Stale(files, ByName(plan), plan[i]))
  }

  // ------------------------------------------------------------- execution

  function Inputs(files: map<string, Artifact>, byName: map<string, Step>, deps: seq<string>): (r: seq<Option<string>>)
    ensures |r| == |deps|
    ensures forall k :: 0 <= k < |deps| ==>
      r[k] == if deps[k] in byName && byName[deps[k]].produces in files
              then Some(files[byName[deps[k]].produces].content) else None
  {
    if deps == [] then []
    else [if deps[0] in byName && byName[deps[0]].produces in files
          then Some(files[byName[deps[0]].produces].content) else None] + Inputs(files, byName, deps[1..])
  }

  function RunStep(make: Make, byName: map<string, Step>, disk: Disk, step: Step, fate: Fate): Disk {
    match fate
    case Succeeds =>
      Disk(disk.files[step.produces :=
             Artifact(make(step.name, disk.clock, Inputs(disk.files, byName, step.dependsOn)), disk.clock)],
           disk.clock + 1)
    case Fails(removed) =>
      Disk(if removed then disk.files - {step.produces} else disk.files, disk.clock + 1)
  }

  /** The step loop from position `i` on. */
  function Pass(make: Make, plan: seq<Step>, disk: Disk, i: nat, force: bool, fates: nat -> Fate): Outcome
    requires i <= |plan|
    decreases |plan| - i
  {
    if i == |plan| then Outcome(disk, {}, true)
    else if !force && !Stale(disk.files, ByName(plan), plan[i]) then
      Pass(make, plan, disk, i + 1, force, fates)
    else
      var disk' := RunStep(make, ByName(plan), disk, plan[i], fates(i));
      if fates(i).Fails? then Outcome(disk', {i}, false)
      else
        var rest := Pass(make, plan, disk', i + 1, force, fates);
        rest.(executed := {i} + rest.executed)
  }

  /** The loop as the program runs it. */
  method RunPlan(make: Make, plan: seq<Step>, start: Disk, force: bool, fates: nat -> Fate) returns (r: Outcome)
    ensures r == Pass(make, plan, start, 0, force, fates)
  {
    var byName := ByName(plan);
    var disk := start;
    var executed: set<nat> := {};
    for i := 0 to |plan|
      invariant var rest := Pass(make, plan, disk, i, force, fates);
        Pass(make, plan, start, 0, force, fates) == rest.(executed := executed + rest.executed)
    {
      var stale := IsStale(disk.files, byName, plan[i]);
      if force || stale {
        ghost var rest := Pass(make, plan, disk, i, force, fates);
        disk := RunStep(make, byName, disk, plan[i], fates(i));
        ghost var before := executed;
        executed := executed + {i};
        if fates(i).Fails? {
          return Outcome(disk, executed, false);
        }
        ghost var next := Pass(make, plan, disk, i + 1, force, fates);
        assert before + rest.executed == executed + next.executed;
      }
    }
    assert executed + {} == executed;
    return Outcome(disk, executed, true);
  }

  // ------------------------------------- what every pass keeps, finished or not

  /** Every declared upstream output exists and is no newer than the step's own. */
  ghost predicate DepsSettled(files: map<string, Artifact>, byName: map<string, Step>, step: Step)
    requires step.produces in files
  {
    forall k :: 0 <= k < |step.dependsOn| && step.dependsOn[k] in byName ==>
      byName[step.dependsOn[k]].produces in files
      && files[byName[step.dependsOn[k]].produces].mtime <= files[step.produces].mtime
  }

  /** The output was made, at its modification time, from the upstream contents now on disk. */
  predicate MadeFrom(make: Make, files: map<string, Artifact>, byName: map<string, Step>, step: Step)
    requires step.produces in files
  {
    files[step.produces].content ==
      make(step.name, files[step.produces].mtime, Inputs(files, byName, step.dependsOn))
  }

  ghost predicate Honest(make: Make, plan: seq<Step>, disk: Disk, step: Step) {
    step.produces in disk.files ==>
      && disk.files[step.produces].mtime < disk.clock
      && (DepsSettled(disk.files, ByName(plan), step) ==> MadeFrom(make, disk.files, ByName(plan), step))
  }

  /** A step whose mtimes look settled holds what its present inputs make. */
  ghost predicate AllHonest(make: Make, plan: seq<Step>, disk: Disk) {
    forall i :: 0 <= i < |plan| ==> Honest(make, plan, disk, plan[i])
  }

  predicate SameFile(a: map<string, Artifact>, b: map<string, Artifact>, path: string) {
    (path in a <==> path in b) && (path in a ==> a[path] == b[path])
  }

  lemma SameInputs(a: map<string, Artifact>, b: map<string, Artifact>, byName: map<string, Step>, deps: seq<string>)
    requires forall k :: 0 <= k < |deps| && deps[k] in byName ==>
      var p := byName[deps[k]].produces; (p in a <==> p in b) && (p in a ==> a[p].content == b[p].content)
    ensures Inputs(a, byName, deps) == Inputs(b, byName, deps)
  {
  }

  lemma OtherStepHonest(make: Make, plan: seq<Step>, disk: Disk, i: nat, j: nat, fate: Fate)
    requires WellFormed(plan) && i < |plan| && j < |plan| && i != j && Honest(make, plan, disk, plan[i])
    ensures Honest(make, plan, RunStep(make, ByName(plan), disk, plan[j], fate), plan[i])
  {
    var byName := ByName(plan);
    var after := RunStep(make, byName, disk, plan[j], fate);
    OutputsDiffer(plan, i, j);
    hide WellFormed, ByName;
    if plan[i].produces in after.files && DepsSettled(after.files, byName, plan[i]) {
      if fate.Succeeds? { SettledMissesNewest(plan, disk, after, i, j); }
      SameInputs(disk.files, after.files, byName, plan[i].dependsOn);
    }
  }

  lemma RunStepHonest(make: Make, plan: seq<Step>, disk: Disk, j: nat, fate: Fate)
    requires WellFormed(plan) && j < |plan| && AllHonest(make, plan, disk)
    ensures AllHonest(make, plan, RunStep(make, ByName(plan), disk, plan[j], fate))
  {
    var after := RunStep(make, ByName(plan), disk, plan[j], fate);
    if fate.Succeeds? { SelfIndependent(plan, disk.files, j, after.files[plan[j].produces]); }
    hide WellFormed, ByName;
    assert Honest(make, plan, disk, plan[j]);
    assert Honest(make, plan, after, plan[j]);
    hide Honest, RunStep;
    forall i | 0 <= i < |plan| ensures Honest(make, plan, after, plan[i]) {
      assert Honest(make, plan, disk, plan[i]);
      if i != j { OtherStepHonest(make, plan, disk, i, j, fate); }
    }
  }

  /** A step is not its own upstream. */
  lemma UpstreamsDiffer(plan: seq<Step>, j: nat)
    requires WellFormed(plan) && j < |plan|
    ensures forall k :: 0 <= k < |plan[j].dependsOn| && plan[j].dependsOn[k] in ByName(plan) ==>
      ByName(plan)[plan[j].dependsOn[k]].produces != plan[j].produces
  {
    hide ByName;
    forall k | 0 <= k < |plan[j].dependsOn| && plan[j].dependsOn[k] in ByName(plan)
      ensures ByName(plan)[plan[j].dependsOn[k]].produces != plan[j].produces
    {
      var d := Upstream(plan, j, k);
      OutputsDiffer(plan, d, j);
    }
  }

  lemma SelfIndependent(plan: seq<Step>, files: map<string, Artifact>, j: nat, output: Artifact)
    requires WellFormed(plan) && j < |plan|
    ensures var after := files[plan[j].produces := output];
      Inputs(after, ByName(plan), plan[j].dependsOn) == Inputs(files, ByName(plan), plan[j].dependsOn)
  {
    UpstreamsDiffer(plan, j);
    hide WellFormed, ByName, Inputs;
    SameInputs(files[plan[j].produces := output], files, ByName(plan), plan[j].dependsOn);
  }

  /** If step `i` still looks settled after step `j` just ran, `j` is not among its upstreams. */
  lemma SettledMissesNewest(plan: seq<Step>, disk: Disk, after: Disk, i: nat, j: nat)
    requires i < |plan| && j < |plan| && plan[i].produces != plan[j].produces
    requires plan[i].produces in disk.files && disk.files[plan[i].produces].mtime < disk.clock
    requires plan[j].produces in after.files
    requires after.files == disk.files[plan[j].produces := after.files[plan[j].produces]]
    requires after.files[plan[j].produces].mtime == disk.clock
    requires DepsSettled(after.files, ByName(plan), plan[i])
    ensures forall k :: 0 <= k < |plan[i].dependsOn| && plan[i].dependsOn[k] in ByName(plan) ==>
      ByName(plan)[plan[i].dependsOn[k]].produces != plan[j].produces
    ensures DepsSettled(disk.files, ByName(plan), plan[i])
  {
    hide ByName;
  }

  lemma {:induction false} PassHonest(make: Make, plan: seq<Step>, disk: Disk, i: nat, force: bool, fates: nat -> Fate)
    requires WellFormed(plan) && i <= |plan| && AllHonest(make, plan, disk)
    ensures AllHonest(make, plan, Pass(make, plan, disk, i, force, fates).disk)
    decreases |plan| - i
  {
    if i < |plan| {
      if force || Stale(disk.files, ByName(plan), plan[i]) {
        RunStepHonest(make, plan, disk, i, fates(i));
        if fates(i).Succeeds? {
          PassHonest(make, plan, RunStep(make, ByName(plan), disk, plan[i], fates(i)), i + 1, force, fates);
        }
      } else {
        PassHonest(make, plan, disk, i + 1, force, fates);
      }
    }
  }

  // ------------------------------------------------------ one completed pass

  /** Step `j` has its output and nothing upstream is newer. */
  predicate Current(plan: seq<Step>, files: map<string, Artifact>, j: nat)
    requires j < |plan|
  {
    !Stale(files, ByName(plan), plan[j])
  }

  lemma EarlierStaysCurrent(make: Make, plan: seq<Step>, disk: Disk, i: nat, j: nat)
    requires WellFormed(plan) && j < i < |plan| && Current(plan, disk.files, j)
    ensures Current(plan, RunStep(make, ByName(plan), disk, plan[i], Succeeds).files, j)
  {
    var after := RunStep(make, ByName(plan), disk, plan[i], Succeeds);
    OutputsDiffer(plan, j, i);
    forall k | 0 <= k < |plan[j].dependsOn|
      ensures !NewerDep(after.files, ByName(plan), plan[j].dependsOn[k], after.files[plan[j].produces].mtime)
    {
      assert !NewerDep(disk.files, ByName(plan), plan[j].dependsOn[k], disk.files[plan[j].produces].mtime);
      if plan[j].dependsOn[k] in ByName(plan) {
        var d := Upstream(plan, j, k);
        OutputsDiffer(plan, d, i);
      }
    }
  }

  lemma JustRunIsCurrent(make: Make, plan: seq<Step>, disk: Disk, i: nat)
    requires WellFormed(plan) && i < |plan|
    requires forall p :: p in disk.files ==> disk.files[p].mtime < disk.clock
    ensures Current(plan, RunStep(make, ByName(plan), disk, plan[i], Succeeds).files, i)
  {
  }

  ghost predicate Timed(disk: Disk) {
    forall p :: p in disk.files ==> disk.files[p].mtime < disk.clock
  }

  lemma {:induction false} PassCurrent(make: Make, plan: seq<Step>, disk: Disk, i: nat, force: bool, fates: nat -> Fate)
    requires WellFormed(plan) && i <= |plan| && Timed(disk)
    requires forall j :: 0 <= j < i ==> Current(plan, disk.files, j)
    requires Pass(make, plan, disk, i, force, fates).completed
    ensures forall j :: 0 <= j < |plan| ==> Current(plan, Pass(make, plan, disk, i, force, fates).disk.files, j)
    decreases |plan| - i
  {
    if i < |plan| {
      if force || Stale(disk.files, ByName(plan), plan[i]) {
        var after := RunStep(make, ByName(plan), disk, plan[i], Succeeds);
        forall j | 0 <= j < i ensures Current(plan, after.files, j) {
          EarlierStaysCurrent(make, plan, disk, i, j);
        }
        JustRunIsCurrent(make, plan, disk, i);
        PassCurrent(make, plan, after, i + 1, force, fates);
      } else {
        PassCurrent(make, plan, disk, i + 1, force, fates);
      }
    }
  }

  /** Every output exists, nothing is stale, and each was made from what is now upstream. */
  ghost predicate UpToDate(make: Make, plan: seq<Step>, files: map<string, Artifact>) {
    forall i :: 0 <= i < |plan| ==>
      Current(plan, files, i) && MadeFrom(make, files, ByName(plan), plan[i])
  }

  lemma CurrentIsSettled(plan: seq<Step>, files: map<string, Artifact>, i: nat)
    requires WellFormed(plan) && i < |plan|
    requires forall j :: 0 <= j < |plan| ==> Current(plan, files, j)
    ensures plan[i].produces in files && DepsSettled(files, ByName(plan), plan[i])
  {
    assert Current(plan, files, i);
    forall k | 0 <= k < |plan[i].dependsOn| && plan[i].dependsOn[k] in ByName(plan)
      ensures ByName(plan)[plan[i].dependsOn[k]].produces in files
      ensures files[ByName(plan)[plan[i].dependsOn[k]].produces].mtime <= files[plan[i].produces].mtime
    {
      var d := Upstream(plan, i, k);
      assert Current(plan, files, d);
      assert !NewerDep(files, ByName(plan), plan[i].dependsOn[k], files[plan[i].produces].mtime);
    }
  }

  // ---------------------------------------------------- histories of interruptions

  /** One invocation of the runner, or somebody deleting a file between two of them. */
  datatype Event = Invoke(force: bool, fates: nat -> Fate) | Delete(path: string)

  function After(make: Make, plan: seq<Step>, disk: Disk, events: seq<Event>): Disk
    decreases |events|
  {
    if events == [] then disk
    else
      var next := match events[0]
        case Invoke(force, fates) => Pass(make, plan, disk, 0, force, fates).disk
        case Delete(path) => disk.(files := disk.files - {path});
      After(make, plan, next, events[1..])
  }

  lemma DeleteHonest(make: Make, plan: seq<Step>, disk: Disk, path: string)
    requires WellFormed(plan) && AllHonest(make, plan, disk)
    ensures AllHonest(make, plan, disk.(files := disk.files - {path}))
  {
    var after := disk.(files := disk.files - {path});
    forall i | 0 <= i < |plan| ensures Honest(make, plan, after, plan[i]) {
      assert Honest(make, plan, disk, plan[i]);
      if plan[i].produces in after.files && DepsSettled(after.files, ByName(plan), plan[i]) {
        SameInputs(disk.files, after.files, ByName(plan), plan[i].dependsOn);
      }
    }
  }

  lemma {:induction false} PassTimed(make: Make, plan: seq<Step>, disk: Disk, i: nat, force: bool, fates: nat -> Fate)
    requires i <= |plan| && Timed(disk)
    ensures Timed(Pass(make, plan, disk, i, force, fates).disk)
    decreases |plan| - i
  {
    if i < |plan| {
      if force || Stale(disk.files, ByName(plan), plan[i]) {
        if fates(i).Succeeds? {
          PassTimed(make, plan, RunStep(make, ByName(plan), disk, plan[i], fates(i)), i + 1, force, fates);
        }
      } else {
        PassTimed(make, plan, disk, i + 1, force, fates);
      }
    }
  }

  lemma {:induction false} AfterHonest(make: Make, plan: seq<Step>, disk: Disk, events: seq<Event>)
    requires WellFormed(plan) && AllHonest(make, plan, disk) && Timed(disk)
    ensures AllHonest(make, plan, After(make, plan, disk, events)) && Timed(After(make, plan, disk, events))
    decreases |events|
  {
    if events != [] {
      match events[0] {
        case Invoke(force, fates) =>
          PassHonest(make, plan, disk, 0, force, fates);
          PassTimed(make, plan, disk, 0, force, fates);
          AfterHonest(make, plan, Pass(make, plan, disk, 0, force, fates).disk, events[1..]);
        case Delete(path) =>
          DeleteHonest(make, plan, disk, path);
          AfterHonest(make, plan, disk.(files := disk.files - {path}), events[1..]);
      }
    }
  }

  /** After any history of failed, interrupted, forced or completed invocations (and deleted
      outputs), one completed invocation leaves every output made from the outputs now on
      disk upstream of it: a retrained model never leaves a stale evaluation behind. */
  lemma CompletedPassIsUpToDate(make: Make, plan: seq<Step>, events: seq<Event>, force: bool, fates: nat -> Fate)
    requires WellFormed(plan)
    requires Pass(make, plan, After(make, plan, Disk(map[], 0), events), 0, force, fates).completed
    ensures UpToDate(make, plan,
              Pass(make, plan, After(make, plan, Disk(map[], 0), events), 0, force, fates).disk.files)
  {
    AfterHonest(make, plan, Disk(map[], 0), events);
    var disk := After(make, plan, Disk(map[], 0), events);
    PassHonest(make, plan, disk, 0, force, fates);
    PassCurrent(make, plan, disk, 0, force, fates);
    var end := Pass(make, plan, disk, 0, force, fates).disk;
    forall i | 0 <= i < |plan|
      ensures plan[i].produces in end.files && MadeFrom(make, end.files, ByName(plan), plan[i])
    {
      assert Honest(make, plan, end, plan[i]) && Current(plan, end.files, i);
      CurrentIsSettled(plan, end.files, i);
    }
  }

  /** On up-to-date outputs a further pass runs nothing and changes nothing. */
  lemma {:induction false} SecondPassRunsNothing(make: Make, plan: seq<Step>, disk: Disk, i: nat, fates: nat -> Fate)
    requires i <= |plan| && forall j :: 0 <= j < |plan| ==> Current(plan, disk.files, j)
    ensures Pass(make, plan, disk, i, false, fates) == Outcome(disk, {}, true)
    decreases |plan| - i
  {
    if i < |plan| {
      assert Current(plan, disk.files, i);
      SecondPassRunsNothing(make, plan, disk, i + 1, fates);
    }
  }

  // ------------------------------------------------- equality with a forced full run

  ghost predicate Repeatable(make: Make) {
    forall name, t, u, inputs :: make(name, t, inputs) == make(name, u, inputs)
  }

  lemma {:induction false} SameContents(make: Make, plan: seq<Step>, a: map<string, Artifact>, b: map<string, Artifact>, n: nat)
    requires WellFormed(plan) && Repeatable(make) && UpToDate(make, plan, a) && UpToDate(make, plan, b) && n <= |plan|
    ensures forall i :: 0 <= i < n ==> SameOutput(a, b, plan[i].produces)
  {
    if n > 0 {
      SameContents(make, plan, a, b, n - 1);
      var step := plan[n - 1];
      forall k | 0 <= k < |step.dependsOn| && step.dependsOn[k] in ByName(plan)
        ensures SameOutput(a, b, ByName(plan)[step.dependsOn[k]].produces)
      {
        var d := Upstream(plan, n - 1, k);
      }
      hide WellFormed, ByName;
      assert Current(plan, a, n - 1) && Current(plan, b, n - 1);
      SameInputs(a, b, ByName(plan), step.dependsOn);
      assert MadeFrom(make, a, ByName(plan), step) && MadeFrom(make, b, ByName(plan), step);
      assert make(step.name, a[step.produces].mtime, Inputs(a, ByName(plan), step.dependsOn))
          == make(step.name, b[step.produces].mtime, Inputs(a, ByName(plan), step.dependsOn));
    }
  }

  predicate SameOutput(a: map<string, Artifact>, b: map<string, Artifact>, path: string) {
    path in a && path in b && a[path].content == b[path].content
  }

  /** With repeatable steps, resuming after any history gives the contents of a forced run. */
  lemma ResumeEqualsForcedRun(make: Make, plan: seq<Step>, events: seq<Event>, fates: nat -> Fate, full: nat -> Fate)
    requires WellFormed(plan) && Repeatable(make)
    requires Pass(make, plan, After(make, plan, Disk(map[], 0), events), 0, false, fates).completed
    requires Pass(make, plan, Disk(map[], 0), 0, true, full).completed
    ensures var resumed := Pass(make, plan, After(make, plan, Disk(map[], 0), events), 0, false, fates).disk.files;
      var forced := Pass(make, plan, Disk(map[], 0), 0, true, full).disk.files;
      forall i :: 0 <= i < |plan| ==> SameOutput(resumed, forced, plan[i].produces)
  {
    CompletedPassIsUpToDate(make, plan, events, false, fates);
    CompletedPassIsUpToDate(make, plan, [], true, full);
    SameContents(make, plan,
      Pass(make, plan, After(make, plan, Disk(map[], 0), events), 0, false, fates).disk.files,
      Pass(make, plan, Disk(map[], 0), 0, true, full).disk.files, |plan|);
  }

  // --------------------------------------------------------- forecast and execution

  /** Position `d` is a declared upstream of position `i`. */
  predicate DependsOn(plan: seq<Step>, i: nat, d: nat)
    requires i < |plan| && d < |plan|
  {
    plan[d].name in plan[i].dependsOn
  }

  predicate WrittenSince(start: Disk, disk: Disk, path: string) {
    path in disk.files && disk.files[path].mtime >= start.clock
  }

  /** What step `i` finds when its turn comes: untouched since the start except for the
      upstream steps already run. */
  ghost predicate Reached(plan: seq<Step>, start: Disk, disk: Disk, ran: set<nat>, i: nat) {
    && (forall j :: 0 <= j < |plan| && j !in ran ==> SameFile(start.files, disk.files, plan[j].produces))
    && (forall j :: j in ran ==> j < i && j < |plan| && WrittenSince(start, disk, plan[j].produces))
    && start.clock <= disk.clock
  }

  lemma StaleWhenReached(plan: seq<Step>, start: Disk, disk: Disk, ran: set<nat>, i: nat)
    requires WellFormed(plan) && i < |plan| && Timed(start) && Reached(plan, start, disk, ran, i)
    ensures Stale(disk.files, ByName(plan), plan[i]) <==> Due(plan, start, ran, i)
  {
    var out := plan[i].produces;
    assert i !in ran;
    if out in start.files {
      var mtime := start.files[out].mtime;
      if d :| d in ran && d < |plan| && DependsOn(plan, i, d) {
        var k :| 0 <= k < |plan[i].dependsOn| && plan[i].dependsOn[k] == plan[d].name;
        ByNameFinds(plan);
        assert NewerDep(disk.files, ByName(plan), plan[i].dependsOn[k], mtime);
      } else {
        forall k | 0 <= k < |plan[i].dependsOn|
          ensures NewerDep(disk.files, ByName(plan), plan[i].dependsOn[k], mtime)
              <==> NewerDep(start.files, ByName(plan), plan[i].dependsOn[k], mtime)
        {
          if plan[i].dependsOn[k] in ByName(plan) {
            var d := Upstream(plan, i, k);
            assert DependsOn(plan, i, d) && d !in ran;
          }
        }
      }
    }
  }

  /** Step `j` is stale at the start or has an upstream in `ran`. */
  ghost predicate Due(plan: seq<Step>, start: Disk, ran: set<nat>, j: nat)
    requires j < |plan|
  {
    Stale(start.files, ByName(plan), plan[j]) || exists d :: d in ran && d < |plan| && DependsOn(plan, j, d)
  }

  lemma ReachedNext(make: Make, plan: seq<Step>, start: Disk, disk: Disk, ran: set<nat>, i: nat)
    requires WellFormed(plan) && i < |plan| && Reached(plan, start, disk, ran, i)
    ensures Reached(plan, start, RunStep(make, ByName(plan), disk, plan[i], Succeeds), ran + {i}, i + 1)
  {
    OthersDiffer(plan, i);
    hide *;
    ReachedWrite(plan, start, disk, ran, i, RunStepOutput(make, ByName(plan), disk, plan[i]));
    RunStepWrites(make, ByName(plan), disk, plan[i]);
  }

  function RunStepOutput(make: Make, byName: map<string, Step>, disk: Disk, step: Step): (r: Artifact)
    ensures r.mtime == disk.clock
  {
    Artifact(make(step.name, disk.clock, Inputs(disk.files, byName, step.dependsOn)), disk.clock)
  }

  lemma RunStepWrites(make: Make, byName: map<string, Step>, disk: Disk, step: Step)
    ensures RunStep(make, byName, disk, step, Succeeds)
         == Disk(disk.files[step.produces := RunStepOutput(make, byName, disk, step)], disk.clock + 1)
  {
  }

  lemma ReachedWrite(plan: seq<Step>, start: Disk, disk: Disk, ran: set<nat>, i: nat, output: Artifact)
    requires i < |plan| && Reached(plan, start, disk, ran, i) && output.mtime == disk.clock
    requires forall j :: 0 <= j < |plan| && j != i ==> plan[j].produces != plan[i].produces
    ensures Reached(plan, start, Disk(disk.files[plan[i].produces := output], disk.clock + 1), ran + {i}, i + 1)
  {
    var next := Disk(disk.files[plan[i].produces := output], disk.clock + 1);
    forall j | 0 <= j < |plan| && j !in ran + {i} ensures SameFile(start.files, next.files, plan[j].produces) {
      assert SameFile(start.files, disk.files, plan[j].produces);
    }
    forall j | j in ran + {i} ensures j < i + 1 && WrittenSince(start, next, plan[j].produces) {
      if j != i { assert WrittenSince(start, disk, plan[j].produces); }
    }
  }

  lemma OthersDiffer(plan: seq<Step>, i: nat)
    requires WellFormed(plan) && i < |plan|
    ensures forall j :: 0 <= j < |plan| && j != i ==> plan[j].produces != plan[i].produces
  {
    forall j: nat | j < |plan| && j != i ensures plan[j].produces != plan[i].produces { OutputsDiffer(plan, j, i); }
  }

  lemma {:induction false} PassExecutes(make: Make, plan: seq<Step>, start: Disk, disk: Disk, ran: set<nat>, i: nat, fates: nat -> Fate)
    requires WellFormed(plan) && i <= |plan| && Timed(start) && Reached(plan, start, disk, ran, i)
    requires Pass(make, plan, disk, i, false, fates).completed
    ensures var all := ran + Pass(make, plan, disk, i, false, fates).executed;
      forall j :: i <= j < |plan| ==> (j in all <==> Due(plan, start, all, j))
    ensures forall j :: j in Pass(make, plan, disk, i, false, fates).executed ==> i <= j < |plan|
    decreases |plan| - i
  {
    hide WellFormed, ByName, Stale, RunStep, Timed, DependsOn;
    if i < |plan| {
      StaleWhenReached(plan, start, disk, ran, i);
      var runs := Stale(disk.files, ByName(plan), plan[i]);
      var next := if runs then RunStep(make, ByName(plan), disk, plan[i], Succeeds) else disk;
      var ran' := if runs then ran + {i} else ran;
      ReachedNext(make, plan, start, disk, ran, i);
      assert Reached(plan, start, next, ran', i + 1);
      assert i !in ran;
      hide Reached;
      PassExecutes(make, plan, start, next, ran', i + 1, fates);
      var all := ran + Pass(make, plan, disk, i, false, fates).executed;
      assert all == ran' + Pass(make, plan, next, i + 1, false, fates).executed;
      NoLaterUpstream(plan, all, ran, i);
      assert Due(plan, start, all, i) <==> Due(plan, start, ran, i);
    }
  }

  /** Upstreams of step `i` lie before it, so later executions do not matter to it. */
  lemma NoLaterUpstream(plan: seq<Step>, all: set<nat>, ran: set<nat>, i: nat)
    requires WellFormed(plan) && i < |plan| && ran <= all
    requires forall j :: j in all && j !in ran ==> i <= j
    ensures (exists d :: d in all && d < |plan| && DependsOn(plan, i, d))
        <==> (exists d :: d in ran && d < |plan| && DependsOn(plan, i, d))
  {
    forall d | d in all && d < |plan| && DependsOn(plan, i, d) ensures d in ran {
      var k :| 0 <= k < |plan[i].dependsOn| && plan[i].dependsOn[k] == plan[d].name;
      assert d < i;
    }
  }

  /** A completed pass executes exactly the steps stale at its start and, transitively,
      those with an executed upstream; so the forecast is a subset of what runs. */
  lemma {:induction false} ExecutedExactly(make: Make, plan: seq<Step>, start: Disk, fates: nat -> Fate)
    requires WellFormed(plan) && Timed(start) && Pass(make, plan, start, 0, false, fates).completed
    ensures var ran := Pass(make, plan, start, 0, false, fates).executed;
      && Pending(plan, start.files, false) <= ran
      && forall j :: 0 <= j < |plan| ==>
           (j in ran <==> j in Pending(plan, start.files, false)
                          || exists d :: d in ran && d < |plan| && DependsOn(plan, j, d))
  {
    PassExecutes(make, plan, start, start, {}, 0, fates);
    var ran := Pass(make, plan, start, 0, false, fates).executed;
    assert {} + ran == ran;
  }

  // ------------------------------------------------------- forced passes, and failures

  /** A completed forced pass runs every step, as the forecast under force says it will. */
  lemma {:induction false} ForcedRunsAll(make: Make, plan: seq<Step>, disk: Disk, i: nat, fates: nat -> Fate)
    requires i <= |plan| && Pass(make, plan, disk, i, true, fates).completed
    ensures forall j :: j in Pass(make, plan, disk, i, true, fates).executed <==> i <= j < |plan|
    ensures i == 0 ==> Pass(make, plan, disk, i, true, fates).executed == Pending(plan, disk.files, true)
    decreases |plan| - i
  {
    if i < |plan| {
      ForcedRunsAll(make, plan, RunStep(make, ByName(plan), disk, plan[i], Succeeds), i + 1, fates);
    }
  }

  /** A pass that does not complete stops at a step that failed: nothing after it runs, and
      every step executed before it succeeded. */
  lemma {:induction false} StopsAtFailure(make: Make, plan: seq<Step>, disk: Disk, i: nat, force: bool, fates: nat -> Fate)
    requires i <= |plan|
    ensures var r := Pass(make, plan, disk, i, force, fates);
      && (forall j :: j in r.executed ==> i <= j < |plan|)
      && (r.completed ==> forall j :: j in r.executed ==> fates(j).Succeeds?)
      && (!r.completed ==>
            exists k :: k in r.executed && fates(k).Fails?
                        && forall j :: j in r.executed ==> j <= k && (j != k ==> fates(j).Succeeds?))
    decreases |plan| - i
  {
    hide Stale, ByName, Inputs;
    if i < |plan| {
      if force || Stale(disk.files, ByName(plan), plan[i]) {
        if fates(i).Succeeds? {
          StopsAtFailure(make, plan, RunStep(make, ByName(plan), disk, plan[i], Succeeds), i + 1, force, fates);
        }
      } else {
        StopsAtFailure(make, plan, disk, i + 1, force, fates);
      }
    }
  }

  /** A step touches its own output alone. */
  lemma RunStepElsewhere(make: Make, byName: map<string, Step>, disk: Disk, step: Step, fate: Fate, path: string)
    requires path != step.produces
    ensures SameFile(disk.files, RunStep(make, byName, disk, step, fate).files, path)
  {
  }

  /** Whatever a pass does, a path that no executed step produces is as it was. */
  lemma {:induction false} UnexecutedKept(make: Make, plan: seq<Step>, disk: Disk, i: nat, force: bool, fates: nat -> Fate,
                                          path: string)
    requires i <= |plan|
    requires var r := Pass(make, plan, disk, i, force, fates);
      forall j :: 0 <= j < |plan| && j in r.executed ==> plan[j].produces != path
    ensures SameFile(disk.files, Pass(make, plan, disk, i, force, fates).disk.files, path)
    decreases |plan| - i
  {
    hide Stale, ByName, Inputs, RunStep;
    if i < |plan| {
      if force || Stale(disk.files, ByName(plan), plan[i]) {
        RunStepElsewhere(make, ByName(plan), disk, plan[i], fates(i), path);
        if fates(i).Succeeds? {
          UnexecutedKept(make, plan, RunStep(make, ByName(plan), disk, plan[i], fates(i)), i + 1, force, fates, path);
        }
      } else {
        UnexecutedKept(make, plan, disk, i + 1, force, fates, path);
      }
    }
  }
}
