/** The pipeline itself: what each of its steps reads and writes, and that the declared
    dependencies are exactly that. */
module RerankerPlan {
  import opened Options
  import opened RerankerRunner

  datatype Profile = Full | Smoke

  /** A step's command line, with what it takes from its environment. */
  datatype Command =
    | BuildMrtydiPairs(limit: nat, negs: nat, out: string)
    | BuildPravoPairs(out: string)
    | TrainReranker(pairs: string, out: string, initFrom: Option<string>, epochs: nat, rate: Option<real>, cpu: bool)
    | EvalRag(golden: string, rerank: bool, out: string, store: string, rerankModel: Option<string>)

  datatype Stage = Stage(name: string, command: Command, produces: string, dependsOn: seq<string>)

  const GOLDEN: string := "data/eval/golden_pravo_natural.jsonl"
  const STORE: string := "var/data/pravo_public.sqlite"
  const TEACHER_MODEL: string := "BAAI/bge-reranker-v2-m3"

  function NameOf(i: nat): string
    requires i < 7
  {
    if i == 0 then "mrtydi_pairs" else if i == 1 then "stage1_train" else if i == 2 then "pravo_pairs"
    else if i == 3 then "stage2_train" else if i == 4 then "eval_base" else if i == 5 then "eval_student"
    else "eval_teacher"
  }

  function SmokeOut(i: nat): string
    requires i < 7
  {
    if i == 0 then "var/_smoke/rerank/mrtydi_pairs.jsonl"
    else if i == 1 then "var/_smoke/models/stage1"
    else if i == 2 then "var/_smoke/rerank/pravo_pairs.jsonl"
    else if i == 3 then "var/_smoke/models/student"
    else if i == 4 then "var/_smoke/eval/pravo_base.json"
    else if i == 5 then "var/_smoke/eval/pravo_student.json"
    else "var/_smoke/eval/pravo_teacher.json"
  }

  function FullOut(i: nat): string
    requires i < 7
  {
    if i == 0 then "var/data/rerank/mrtydi_pairs.jsonl"
    else if i == 1 then "var/models/kbai-reranker-ru-stage1"
    else if i == 2 then "var/data/rerank/pravo_pairs.jsonl"
    else if i == 3 then "var/models/kbai-reranker-ru"
    else if i == 4 then "var/data/eval/pravo_base.json"
    else if i == 5 then "var/data/eval/pravo_student.json"
    else "var/data/eval/pravo_teacher.json"
  }

  /** The file or model directory step `i` is told to write. */
  function OutOf(p: Profile, i: nat): string
    requires i < 7
  {
    if p == Smoke then SmokeOut(i) else FullOut(i)
  }

  /** A trained model is there when its metadata file is. */
  function Sentinel(directory: string): string {
    directory + "/train_meta.json"
  }

  /** The seven steps, in order. */
  function Stages(p: Profile): (r: seq<Stage>)
    ensures |r| == 7
  {
    var mrtydi, stage1, pravo, student := OutOf(p, 0), OutOf(p, 1), OutOf(p, 2), OutOf(p, 3);
    var smoke := p == Smoke;
    var epochs := if smoke then 1 else 2;
    [ Stage(NameOf(0), BuildMrtydiPairs(if smoke then 2000 else 100000, if smoke then 8 else 20, mrtydi), mrtydi, []),
      Stage(NameOf(1), TrainReranker(mrtydi, stage1, None, epochs, None, smoke), Sentinel(stage1), [NameOf(0)]),
      Stage(NameOf(2), BuildPravoPairs(pravo), pravo, []),
      Stage(NameOf(3), TrainReranker(pravo, student, Some(stage1), epochs, Some(0.00001), smoke), Sentinel(student),
            [NameOf(2), NameOf(1)]),
      Stage(NameOf(4), EvalRag(GOLDEN, false, OutOf(p, 4), STORE, None), OutOf(p, 4), []),
      Stage(NameOf(5), EvalRag(GOLDEN, true, OutOf(p, 5), STORE, Some(student)), OutOf(p, 5), [NameOf(3)]),
      Stage(NameOf(6), EvalRag(GOLDEN, true, OutOf(p, 6), STORE, Some(TEACHER_MODEL)), OutOf(p, 6), []) ]
  }

  function StepOf(stage: Stage): Step {
    Step(stage.name, stage.produces, stage.dependsOn)
  }

  /** The plan as the runner sees it. */
  function BuildPlan(p: Profile): (r: seq<Step>)
    ensures |r| == 7 && forall i :: 0 <= i < 7 ==> r[i] == StepOf(Stages(p)[i])
  {
    seq(7, i requires 0 <= i < 7 => StepOf(Stages(p)[i]))
  }

  /** The paths a command is told to read, other than the golden questions and the store. */
  function Reads(c: Command): seq<string> {
    match c
    case BuildMrtydiPairs(_, _, _) => []
    case BuildPravoPairs(_) => []
    case TrainReranker(pairs, _, initFrom, _, _, _) => [pairs] + (if initFrom.Some? then [initFrom.value] else [])
    case EvalRag(_, rerank, _, _, model) => if rerank && model.Some? then [model.value] else []
  }

  // -------------------------------------------------------------- names and paths differ

  /** Length and one character tell the names apart, and likewise the paths. */
  function NameIndex(name: string): nat {
    if |name| == 11 then 2 else if |name| == 9 then 4 else if |name| != 12 then 7
    else if name[5] == 'i' then 0 else if name[5] == '1' then 1 else if name[5] == '2' then 3
    else if name[5] == 's' then 5 else 6
  }

  function SmokeIndex(path: string): nat {
    if |path| == 36 then 0 else if |path| == 24 then 1 else if |path| == 35 then 2 else if |path| == 25 then 3
    else if |path| == 31 then 4 else if |path| != 34 then 7 else if path[22] == 's' then 5 else 6
  }

  function FullIndex(path: string): nat {
    if |path| == 33 then 2 else if |path| == 27 then 3 else if |path| == 29 then 4
    else if |path| == 34 then (if path[4] == 'd' then 0 else 1)
    else if |path| != 32 then 7 else if path[20] == 's' then 5 else 6
  }

  lemma NameIndexIs(i: nat)
    requires i < 7
    ensures NameIndex(NameOf(i)) == i
  {
  }

  lemma SmokeIndexIs(i: nat)
    requires i < 7
    ensures SmokeIndex(SmokeOut(i)) == i
    ensures |SmokeOut(i)| == [36, 24, 35, 25, 31, 34, 34][i]
  {
  }

  lemma FullIndexIs(i: nat)
    requires i < 7
    ensures FullIndex(FullOut(i)) == i
    ensures |FullOut(i)| == [34, 34, 33, 27, 29, 32, 32][i]
  {
  }

  lemma TeacherIsElsewhere()
    ensures SmokeIndex(TEACHER_MODEL) == 7 && FullIndex(TEACHER_MODEL) == 7
  {
  }

  lemma Distinct(p: Profile, i: nat, j: nat)
    requires i < 7 && j < 7
    ensures NameOf(i) == NameOf(j) ==> i == j
    ensures OutOf(p, i) == OutOf(p, j) ==> i == j
    ensures OutOf(p, i) != TEACHER_MODEL
  {
    hide NameOf, SmokeOut, FullOut, NameIndex, SmokeIndex, FullIndex;
    NameIndexIs(i);
    NameIndexIs(j);
    SmokeIndexIs(i);
    SmokeIndexIs(j);
    FullIndexIs(i);
    FullIndexIs(j);
    TeacherIsElsewhere();
  }

  lemma SentinelsDiffer(p: Profile, i: nat, j: nat)
    requires i < 7 && j < 7
    ensures OutOf(p, i) != Sentinel(OutOf(p, j))
    ensures Sentinel(OutOf(p, i)) == Sentinel(OutOf(p, j)) ==> i == j
  {
    hide SmokeOut, FullOut, SmokeIndex, FullIndex;
    SmokeIndexIs(i);
    SmokeIndexIs(j);
    FullIndexIs(i);
    FullIndexIs(j);
    SentinelLonger(OutOf(p, i));
    SentinelLonger(OutOf(p, j));
    Distinct(p, i, j);
  }

  lemma SentinelLonger(directory: string)
    ensures |Sentinel(directory)| == |directory| + 16 && Sentinel(directory)[..|directory|] == directory
  {
  }

  /** A step's output is what its command writes, or the sentinel in it. */
  lemma OutputOf(p: Profile, i: nat)
    requires i < 7
    ensures Stages(p)[i].command.out == OutOf(p, i) && Stages(p)[i].name == NameOf(i)
    ensures Stages(p)[i].produces == if i == 1 || i == 3 then Sentinel(OutOf(p, i)) else OutOf(p, i)
  {
    hide OutOf, NameOf, Sentinel;
  }

  lemma OutputsDistinct(p: Profile, i: nat, j: nat)
    requires i < 7 && j < 7 && i != j
    ensures Stages(p)[i].name != Stages(p)[j].name && Stages(p)[i].produces != Stages(p)[j].produces
  {
    hide Stages, OutOf, NameOf, Sentinel;
    OutputOf(p, i);
    OutputOf(p, j);
    Distinct(p, i, j);
    SentinelsDiffer(p, i, j);
    SentinelsDiffer(p, j, i);
  }

  /** What each step is told to read, and the steps it is declared to follow. */
  lemma ReadsOf(p: Profile, i: nat)
    requires i < 7
    ensures Reads(Stages(p)[i].command)
      == if i == 1 then [OutOf(p, 0)] else if i == 3 then [OutOf(p, 2), OutOf(p, 1)]
         else if i == 5 then [OutOf(p, 3)] else if i == 6 then [TEACHER_MODEL] else []
    ensures Stages(p)[i].dependsOn
      == if i == 1 then [NameOf(0)] else if i == 3 then [NameOf(2), NameOf(1)]
         else if i == 5 then [NameOf(3)] else []
  {
    hide OutOf, NameOf, Sentinel;
  }

  // --------------------------------------------------- declared dependencies are the reads

  /** Main result: a step is declared to depend on another exactly when it is told to read what
      that one is told to write - and such a step comes before it. */
  lemma DependsOnWhatItReads(p: Profile, i: nat, d: nat)
    requires i < 7 && d < 7
    ensures DependsOn(BuildPlan(p), i, d) <==> Stages(p)[d].command.out in Reads(Stages(p)[i].command)
    ensures DependsOn(BuildPlan(p), i, d) ==> d < i
  {
    hide Stages, OutOf, NameOf;
    OutputOf(p, d);
    ReadsOf(p, i);
    forall k: nat | k < 7 ensures (NameOf(d) == NameOf(k) ==> d == k) && (OutOf(p, d) == OutOf(p, k) ==> d == k) {
      Distinct(p, d, k);
    }
    Distinct(p, d, d);
  }

  /** The plan of either profile meets what the theorems on the runner ask of a plan. */
  lemma BuildPlanWellFormed(p: Profile)
    ensures WellFormed(BuildPlan(p))
  {
    var plan := BuildPlan(p);
    hide Stages, OutOf, NameOf, BuildPlan;
    forall i, j | 0 <= i < j < 7 ensures plan[i].name != plan[j].name && plan[i].produces != plan[j].produces {
      OutputsDistinct(p, i, j);
    }
    forall i, j, k | 0 <= i < 7 && 0 <= j < 7 && 0 <= k < |plan[i].dependsOn| && plan[j].name == plan[i].dependsOn[k]
      ensures j < i
    {
      DependsOnWhatItReads(p, i, j);
    }
  }

  /** Every dependency a step declares is an earlier step. */
  lemma DependencyIsStep(p: Profile, i: nat, k: nat)
    requires i < 7 && k < |BuildPlan(p)[i].dependsOn|
    ensures Upstreams(i, k) < i && BuildPlan(p)[i].dependsOn[k] == BuildPlan(p)[Upstreams(i, k)].name
  {
    ReadsOf(p, i);
    OutputOf(p, Upstreams(i, k));
    hide Stages, NameOf;
  }

  /** The step behind the `k`-th dependency of step `i`. */
  function Upstreams(i: nat, k: nat): (d: nat)
    ensures d < 7 && (i == 1 || i == 3 || i == 5 ==> d < i)
  {
    if i == 1 then 0 else if i == 5 then 3 else if k == 0 then 2 else 1
  }

  // -------------------------------------------------------------------- what a run reads

  /** The step that writes the path, if one does. */
  function Writer(stages: seq<Stage>, path: string): (r: Option<nat>)
    ensures r.Some? ==> r.value < |stages| && stages[r.value].command.out == path
    ensures r.None? ==> forall d :: 0 <= d < |stages| ==> stages[d].command.out != path
  {
    if stages == [] then None
    else
      var n := |stages| - 1;
      if stages[n].command.out == path then Some(n) else Writer(stages[..n], path)
  }

  /** The contents now at those of the paths that the pipeline writes; what comes from outside
      does not change. */
  function ContentsAt(files: map<string, Artifact>, stages: seq<Stage>, paths: seq<string>): seq<Option<string>> {
    if paths == [] then []
    else
      var d := Writer(stages, paths[0]);
      (if d.None? then []
       else [if stages[d.value].produces in files then Some(files[stages[d.value].produces].content) else None])
      + ContentsAt(files, stages, paths[1..])
  }

  lemma WriterOf(p: Profile, d: nat)
    requires d < 7
    ensures Writer(Stages(p), OutOf(p, d)) == Some(d)
  {
    hide Stages, OutOf, Writer;
    OutputOf(p, d);
    var w := Writer(Stages(p), OutOf(p, d));
    if w.Some? {
      OutputOf(p, w.value);
      Distinct(p, w.value, d);
    }
  }

  lemma NoWriterOfTeacher(p: Profile)
    ensures Writer(Stages(p), TEACHER_MODEL) == None
  {
    hide Stages, OutOf, Writer;
    var w := Writer(Stages(p), TEACHER_MODEL);
    if w.Some? {
      OutputOf(p, w.value);
      Distinct(p, w.value, w.value);
    }
  }

  lemma ContentsAtOne(files: map<string, Artifact>, stages: seq<Stage>, path: string, rest: seq<string>)
    ensures ContentsAt(files, stages, [path] + rest)
      == (match Writer(stages, path)
          case None => []
          case Some(d) => [if stages[d].produces in files then Some(files[stages[d].produces].content) else None])
         + ContentsAt(files, stages, rest)
  {
    assert ([path] + rest)[1..] == rest;
    hide Writer;
  }

  /** The content of an output, if it is there. */
  function Content(files: map<string, Artifact>, path: string): Option<string> {
    if path in files then Some(files[path].content) else None
  }

  lemma OneRead(p: Profile, files: map<string, Artifact>, d: nat, rest: seq<string>)
    requires d < 7
    ensures ContentsAt(files, Stages(p), [OutOf(p, d)] + rest)
         == [Content(files, Stages(p)[d].produces)] + ContentsAt(files, Stages(p), rest)
  {
    hide Stages, OutOf, Writer, ContentsAt;
    WriterOf(p, d);
    ContentsAtOne(files, Stages(p), OutOf(p, d), rest);
  }

  lemma Joined<T>(a: T, b: T)
    ensures [a] + [] == [a] && [a] + [b] == [a, b]
  {
  }

  lemma ReadContents(p: Profile, files: map<string, Artifact>, i: nat)
    requires i < 7
    ensures var stages := Stages(p);
      ContentsAt(files, stages, Reads(stages[i].command))
        == if i == 1 then [Content(files, stages[0].produces)]
           else if i == 3 then [Content(files, stages[2].produces), Content(files, stages[1].produces)]
           else if i == 5 then [Content(files, stages[3].produces)] else []
  {
    ReadsOf(p, i);
    NoPaths(files, Stages(p));
    hide *;
    if i == 1 || i == 5 {
      var d := if i == 1 then 0 else 3;
      OneRead(p, files, d, []);
      Joined(OutOf(p, d), OutOf(p, d));
      Joined(Content(files, Stages(p)[d].produces), Content(files, Stages(p)[d].produces));
    } else if i == 3 {
      OneRead(p, files, 2, [OutOf(p, 1)]);
      OneRead(p, files, 1, []);
      Joined(OutOf(p, 2), OutOf(p, 1));
      Joined(OutOf(p, 1), OutOf(p, 1));
      Joined(Content(files, Stages(p)[1].produces), Content(files, Stages(p)[1].produces));
      Joined(Content(files, Stages(p)[2].produces), Content(files, Stages(p)[1].produces));
    } else if i == 6 {
      NoWriterOfTeacher(p);
      ContentsAtOne(files, Stages(p), TEACHER_MODEL, []);
      Joined(TEACHER_MODEL, TEACHER_MODEL);
    }
  }

  lemma NoPaths(files: map<string, Artifact>, stages: seq<Stage>)
    ensures ContentsAt(files, stages, []) == []
  {
  }

  lemma InputAt(p: Profile, files: map<string, Artifact>, deps: seq<string>, k: nat, d: nat)
    requires k < |deps| && d < 7 && deps[k] == NameOf(d)
    ensures Inputs(files, ByName(BuildPlan(p)), deps)[k] == Content(files, Stages(p)[d].produces)
  {
    var plan := BuildPlan(p);
    BuildPlanWellFormed(p);
    ByNameFinds(plan);
    OutputOf(p, d);
    assert plan[d].name == NameOf(d) && plan[d].produces == Stages(p)[d].produces;
    hide Stages, OutOf, NameOf, BuildPlan, WellFormed;
    assert ByName(plan)[plan[d].name] == plan[d];
    hide ByName;
  }

  /** So on every disk the inputs through which the runner explains a step's output are what
      its command line reads. */
  lemma InputsAreReads(p: Profile, files: map<string, Artifact>, i: nat)
    requires i < 7
    ensures Inputs(files, ByName(BuildPlan(p)), BuildPlan(p)[i].dependsOn)
         == ContentsAt(files, Stages(p), Reads(Stages(p)[i].command))
  {
    var deps := BuildPlan(p)[i].dependsOn;
    assert deps == Stages(p)[i].dependsOn;
    ReadsOf(p, i);
    ReadContents(p, files, i);
    hide *;
    var inputs := Inputs(files, ByName(BuildPlan(p)), deps);
    if i == 1 || i == 5 {
      InputAt(p, files, deps, 0, if i == 1 then 0 else 3);
      OfOne(inputs);
    } else if i == 3 {
      InputAt(p, files, deps, 0, 2);
      InputAt(p, files, deps, 1, 1);
      OfTwo(inputs);
    }
  }

  lemma OfOne<T>(s: seq<T>)
    requires |s| == 1
    ensures s == [s[0]]
  {
  }

  lemma OfTwo<T>(s: seq<T>)
    requires |s| == 2
    ensures s == [s[0], s[1]]
  {
  }

  /** With all outputs there, a step is stale exactly when something it reads was written after
      its own output. */
  lemma StaleIffReadIsNewer(p: Profile, files: map<string, Artifact>, i: nat)
    requires i < 7 && forall j :: 0 <= j < 7 ==> Stages(p)[j].produces in files
    ensures Stale(files, ByName(BuildPlan(p)), BuildPlan(p)[i])
      <==> exists d :: 0 <= d < 7 && Stages(p)[d].command.out in Reads(Stages(p)[i].command)
                       && files[Stages(p)[d].produces].mtime > files[Stages(p)[i].produces].mtime
  {
    var plan := BuildPlan(p);
    BuildPlanWellFormed(p);
    ByNameFinds(plan);
    forall d: nat | d < 7
      ensures DependsOn(plan, i, d) <==> Stages(p)[d].command.out in Reads(Stages(p)[i].command)
      ensures plan[d].produces == Stages(p)[d].produces
    {
      DependsOnWhatItReads(p, i, d);
    }
    hide Stages, OutOf, NameOf, BuildPlan, ByName, WellFormed, Reads;
    var mtime := files[plan[i].produces].mtime;
    if k :| 0 <= k < |plan[i].dependsOn| && NewerDep(files, ByName(plan), plan[i].dependsOn[k], mtime) {
      DependencyIsStep(p, i, k);
      assert DependsOn(plan, i, Upstreams(i, k));
    }
    if d :| 0 <= d < 7 && Stages(p)[d].command.out in Reads(Stages(p)[i].command)
            && files[Stages(p)[d].produces].mtime > mtime {
      assert DependsOn(plan, i, d);
      var k :| 0 <= k < |plan[i].dependsOn| && plan[i].dependsOn[k] == plan[d].name;
      assert NewerDep(files, ByName(plan), plan[i].dependsOn[k], mtime);
    }
  }

  /** Main result, for the pipeline itself: after any history of interruptions a completed pass
      leaves every output made from what its command line reads, as it is now on disk; and if
      the steps are repeatable, with the contents that one forced full pass gives. */
  lemma PipelineResumes(p: Profile, make: Make, events: seq<Event>, fates: nat -> Fate, full: nat -> Fate, i: nat)
    requires i < 7
    requires Pass(make, BuildPlan(p), After(make, BuildPlan(p), Disk(map[], 0), events), 0, false, fates).completed
    requires Pass(make, BuildPlan(p), Disk(map[], 0), 0, true, full).completed
    ensures var plan := BuildPlan(p);
      var resumed := Pass(make, plan, After(make, plan, Disk(map[], 0), events), 0, false, fates).disk.files;
      var forced := Pass(make, plan, Disk(map[], 0), 0, true, full).disk.files;
      var stage := Stages(p)[i];
      && stage.produces in resumed
      && resumed[stage.produces].content
           == make(stage.name, resumed[stage.produces].mtime, ContentsAt(resumed, Stages(p), Reads(stage.command)))
      && (Repeatable(make) ==> SameOutput(resumed, forced, stage.produces))
  {
    var plan := BuildPlan(p);
    BuildPlanWellFormed(p);
    assert plan[i].produces == Stages(p)[i].produces && plan[i].name == Stages(p)[i].name;
    hide Stages, OutOf, NameOf, BuildPlan, WellFormed, Pass, After, Reads, ContentsAt, Repeatable;
    var resumed := Pass(make, plan, After(make, plan, Disk(map[], 0), events), 0, false, fates).disk.files;
    CompletedPassIsUpToDate(make, plan, events, false, fates);
    assert Current(plan, resumed, i) && MadeFrom(make, resumed, ByName(plan), plan[i]);
    InputsAreReads(p, resumed, i);
    if Repeatable(make) { ResumeEqualsForcedRun(make, plan, events, fates, full); }
  }
}
