/**
 * The headless runner. A folder of JSON configs works as a queue: `X.json`
 * is pending until a marker `X.done` sits beside it. Running a config
 * resolves the model, expert-rules and sample paths on the network share,
 * checks that the base folder and both models exist, creates the output
 * folder and makes the fixed sequence of evaluator calls, skipping sample
 * files that are missing. An exception raised by the evaluator ends the run
 * and is reported, never propagated.
 */
module Dashboard {
  import opened Wrappers
  import opened Text
  import opened Storage
  import opened Pipeline
  import opened Stages

  /** The root of the network share the runs read from and write to. */
  const NetworkRoot: string := "\\\\sassrv04\\DA_WWCC1\\1_Global_Analytics_Consultancy\\R1_2\\PRODUCT\\CE\\01_Data\\TEST_SUITE"

  /** The `sample_files` entry of a config: four lists, and the Tagger's two optional names. */
  datatype SampleFiles = SampleFiles(
    accuracy: seq<string>, anomalies: seq<string>, precision: seq<string>, stability: seq<string>,
    distribution: Option<string>, companyList: Option<string>)
  {
    function Files(s: Stage): seq<string> {
      match s
      case AccuracyStage => accuracy
      case AnomaliesStage => anomalies
      case PrecisionStage => precision
      case StabilityStage => stability
    }
  }

  /**
   * A parsed config. An absent optional key is `None`, and so is one present
   * with JSON `null`, which the script does not treat alike; `hasOldNewStructure`
   * is the truth value of `has_old_new_expert_structure`.
   */
  datatype Config = Config(
    country: string, segment: string, date: string, outputFolderName: string,
    dataRoot: Option<string>, oldModel: string, newModel: string,
    oldExpertRules: Option<string>, newExpertRules: Option<string>, hasOldNewStructure: bool,
    samples: SampleFiles)

  // ---------------------------------------------------------------------------
  // Paths of a run

  /** `<share>/<data_root>`, the data root defaulting to `<country>/<segment>/<date>`. */
  function BasePath(c: Config): string {
    var root := if c.dataRoot.Some? then c.dataRoot.value else c.country + "/" + c.segment + "/" + c.date;
    PathJoin(NetworkRoot, root)
  }

  predicate IsTagger(c: Config) {
    ToLower(c.segment) == "tagger"
  }

  function ModelDir(c: Config): string {
    PathJoin(BasePath(c), "model")
  }

  /** The old model: under `model/prod`, or directly under `model` for the Tagger. */
  function OldModelPath(c: Config): string {
    if IsTagger(c) then PathJoin(ModelDir(c), c.oldModel) else PathJoin(PathJoin(ModelDir(c), "prod"), c.oldModel)
  }

  /** The new model: under `model/develop`, or directly under `model` for the Tagger. */
  function NewModelPath(c: Config): string {
    if IsTagger(c) then PathJoin(ModelDir(c), c.newModel) else PathJoin(PathJoin(ModelDir(c), "develop"), c.newModel)
  }

  function SampleDir(c: Config): string {
    PathJoin(BasePath(c), "Sample")
  }

  function OutputDir(c: Config): string {
    PathJoin(PathJoin(BasePath(c), "output"), c.outputFolderName)
  }

  /**
   * The two expert-rules paths. Both are set exactly when an old name is
   * given; the new name defaults to the old one; with the old/new layout
   * each lies in its own subfolder, otherwise both lie in the shared pool.
   */
  function ExpertPaths(c: Config): (r: (Option<string>, Option<string>))
    ensures r.0 == ExpertPath(ModelDir(c), c.oldExpertRules, "old", c.hasOldNewStructure)
    ensures r.1.Some? <==> Truthy(c.oldExpertRules)
    ensures c.newExpertRules.None? ==> r.1 == ExpertPath(ModelDir(c), c.oldExpertRules, "new", c.hasOldNewStructure)
    ensures Truthy(c.oldExpertRules) && Truthy(c.newExpertRules) ==>
              r.1 == ExpertPath(ModelDir(c), c.newExpertRules, "new", c.hasOldNewStructure)
    ensures !c.hasOldNewStructure && c.newExpertRules.None? ==> r.0 == r.1
  {
    if Truthy(c.oldExpertRules) then
      var base := PathJoin(ModelDir(c), "expertrules");
      var newName := if c.newExpertRules.Some? then c.newExpertRules.value else c.oldExpertRules.value;
      if c.hasOldNewStructure then
        (Some(PathJoin(PathJoin(base, "old"), c.oldExpertRules.value)), Some(PathJoin(PathJoin(base, "new"), newName)))
      else
        (Some(PathJoin(base, c.oldExpertRules.value)), Some(PathJoin(base, newName)))
    else (None, None)
  }

  // ---------------------------------------------------------------------------
  // Checks before the run

  /** What ends a run before any evaluator is built, or how the run ended. */
  datatype Outcome =
    | MissingBasePath(path: string)
    | MissingModel(what: string, path: string)
    | Finished
    | Failed

  /** The models to check, in order, with the label reported when one is missing. */
  function ModelChecks(c: Config): seq<(string, string)> {
    if IsTagger(c) then [(OldModelPath(c), "Old model"), (NewModelPath(c), "New model")]
    else [(OldModelPath(c), "Old model (prod)"), (NewModelPath(c), "New model (develop)")]
  }

  /** The first check whose path does not exist. */
  function FirstMissing(fs: Store, checks: seq<(string, string)>): (r: Option<(string, string)>)
    ensures r.Some? ==> r.value in checks && !Exists(fs, r.value.0)
    ensures r.None? <==> forall i :: 0 <= i < |checks| ==> Exists(fs, checks[i].0)
  {
    if |checks| == 0 then None
    else if !Exists(fs, checks[0].0) then Some(checks[0])
    else
      var r := FirstMissing(fs, checks[1..]);
      assert r.None? ==> forall i :: 0 <= i < |checks| ==> Exists(fs, checks[i].0) by {
        if r.None? {
          forall i | 0 <= i < |checks|
            ensures Exists(fs, checks[i].0)
          {
            if i > 0 {
              assert checks[i] == checks[1..][i - 1];
            }
          }
        }
      }
      r
  }

  /** Why the run stops before building an evaluator: the base folder, then each model. */
  function Precheck(fs: Store, c: Config): Option<Outcome> {
    if !Exists(fs, BasePath(c)) then Some(MissingBasePath(BasePath(c)))
    else
      match FirstMissing(fs, ModelChecks(c))
      case Some(m) => Some(MissingModel(m.1, m.0))
      case None => None
  }

  /**
   * A run goes ahead exactly when the base folder and both models exist; a
   * missing base folder is reported first, then the old model, then the new.
   */
  lemma PrecheckOrder(fs: Store, c: Config)
    ensures Precheck(fs, c).None? <==>
              Exists(fs, BasePath(c)) && Exists(fs, OldModelPath(c)) && Exists(fs, NewModelPath(c))
    ensures !Exists(fs, BasePath(c)) ==> Precheck(fs, c) == Some(MissingBasePath(BasePath(c)))
    ensures Exists(fs, BasePath(c)) && !Exists(fs, OldModelPath(c)) ==>
              Precheck(fs, c).value.MissingModel? && Precheck(fs, c).value.path == OldModelPath(c)
    ensures Exists(fs, BasePath(c)) && Exists(fs, OldModelPath(c)) && !Exists(fs, NewModelPath(c)) ==>
              Precheck(fs, c).value.MissingModel? && Precheck(fs, c).value.path == NewModelPath(c)
  {
    var checks := ModelChecks(c);
    assert checks[0].0 == OldModelPath(c) && checks[1].0 == NewModelPath(c);
    assert checks[1..][1..] == [];
  }

  // ---------------------------------------------------------------------------
  // The evaluator calls of a run

  /** The sample file `f` exists in the sample folder. */
  predicate SamplePresent(fs: Store, dir: string, f: string) {
    Exists(fs, PathJoin(dir, f))
  }

  /**
   * The i-th listed sample of a stage: its call when the file exists,
   * nothing when it is skipped. The position counts skipped files too.
   */
  function PresentBlock(fs: Store, s: Stage, dir: string): (nat, string) -> seq<Event> {
    (i: nat, f: string) => if SamplePresent(fs, dir, f) then [Eval(StageCall(s, dir, i, f))] else []
  }

  /** The first `n` stages of a test-runner run from a config. */
  function ConfigStages(fs: Store, c: Config, n: nat): seq<Event>
    requires n <= 4
  {
    if n == 0 then
      var (oldRules, newRules) := ExpertPaths(c);
      [Eval(NewRunner(OldModelPath(c), NewModelPath(c), OutputDir(c), oldRules, newRules)),
       Eval(CrossValidation(oldRules, newRules))]
    else
      ConfigStages(fs, c, n - 1) + Blocks(c.samples.Files(StageAt(n)), 1, PresentBlock(fs, StageAt(n), SampleDir(c)))
  }

  /** A test-runner run: build, cross-validate, the four stages, save the reports. */
  function RunnerCalls(fs: Store, c: Config): seq<Event> {
    ConfigStages(fs, c, 4) + [Eval(SaveReports)]
  }

  /** The companies list handed to the Tagger distribution, when one is named. */
  function CompanyList(c: Config): Option<string> {
    if Truthy(c.samples.companyList) then Some(PathJoin(SampleDir(c), c.samples.companyList.value)) else None
  }

  /** The Tagger distribution is computed when a file is named and present. */
  predicate DistributionRuns(fs: Store, c: Config) {
    Truthy(c.samples.distribution) && SamplePresent(fs, SampleDir(c), c.samples.distribution.value)
  }

  /** A Tagger run: build, cross-validate, the distribution when present, save the reports. */
  function TaggerCalls(fs: Store, c: Config): seq<Event> {
    [Eval(NewTaggerRunner(OldModelPath(c), NewModelPath(c), OutputDir(c))), Eval(TaggerCrossValidation)]
    + (if DistributionRuns(fs, c)
       then [Eval(TaggerDistribution(PathJoin(SampleDir(c), c.samples.distribution.value), CompanyList(c)))]
       else [])
    + [Eval(SaveTaggerReports)]
  }

  /** Every call a config's run attempts, given the share after the output folder is made. */
  function ConfigCalls(fs: Store, c: Config): seq<Event> {
    if IsTagger(c) then TaggerCalls(fs, c) else RunnerCalls(fs, c)
  }

  lemma {:induction false} ConfigStagesPrefix(fs: Store, c: Config, n: nat)
    requires n <= 4
    ensures ConfigStages(fs, c, n) <= RunnerCalls(fs, c)
    decreases 4 - n
  {
    if n == 4 {
      PrefixGrows(ConfigStages(fs, c, 4), ConfigStages(fs, c, 4), [Eval(SaveReports)]);
    } else {
      ConfigStagesPrefix(fs, c, n + 1);
      var pre := ConfigStages(fs, c, n);
      var next := ConfigStages(fs, c, n + 1);
      assert next[..|pre|] == pre;
    }
  }

  /** The events of a stage whose listed samples are all present: one call per file, tagged by position. */
  lemma {:induction false} AllPresentStage(fs: Store, files: seq<string>, first: nat, s: Stage, dir: string)
    requires forall f :: f in files ==> SamplePresent(fs, dir, f)
    ensures |Blocks(files, first, PresentBlock(fs, s, dir))| == |files|
    ensures forall i :: 0 <= i < |files| ==>
              Blocks(files, first, PresentBlock(fs, s, dir))[i] == Eval(StageCall(s, dir, first + i, files[i]))
  {
    var b := PresentBlock(fs, s, dir);
    var ev := (i: nat, f: string) => Eval(StageCall(s, dir, i, f));
    forall k | 0 <= k < |files|
      ensures b(first + k, files[k]) == [ev(first + k, files[k])]
    {
      assert files[k] in files;
    }
    SingleEventBlocks(files, first, b, ev);
  }

  /** A stage whose every block is one event has, at position i, the i-th file's event. */
  lemma {:induction false} SingleEventBlocks(files: seq<string>, first: nat, block: (nat, string) -> seq<Event>, ev: (nat, string) -> Event)
    requires forall k :: 0 <= k < |files| ==> block(first + k, files[k]) == [ev(first + k, files[k])]
    ensures |Blocks(files, first, block)| == |files|
    ensures forall i :: 0 <= i < |files| ==> Blocks(files, first, block)[i] == ev(first + i, files[i])
    decreases |files|
  {
    if |files| > 0 {
      forall k | 0 <= k < |files| - 1
        ensures block(first + 1 + k, files[1..][k]) == [ev(first + 1 + k, files[1..][k])]
      {
        assert files[1..][k] == files[k + 1];
        assert block(first + (k + 1), files[k + 1]) == [ev(first + (k + 1), files[k + 1])];
      }
      SingleEventBlocks(files[1..], first + 1, block, ev);
      assert block(first + 0, files[0]) == [ev(first + 0, files[0])];
      var rest := Blocks(files[1..], first + 1, block);
      assert Blocks(files, first, block) == [ev(first, files[0])] + rest;
      forall i | 0 <= i < |files|
        ensures Blocks(files, first, block)[i] == ev(first + i, files[i])
      {
        if i > 0 {
          assert files[1..][i - 1] == files[i];
        }
      }
    }
  }

  /**
   * A missing sample is skipped without renumbering: the i-th listed file's
   * call carries position i whether or not files before it were skipped.
   */
  lemma SkipKeepsPositions(fs: Store, files: seq<string>, s: Stage, dir: string, i: nat)
    requires i < |files| && SamplePresent(fs, dir, files[i])
    ensures Blocks(files, 1, PresentBlock(fs, s, dir))
            == Blocks(files[..i], 1, PresentBlock(fs, s, dir)) + [Eval(StageCall(s, dir, 1 + i, files[i]))]
               + Blocks(files[i + 1..], i + 2, PresentBlock(fs, s, dir))
  {
    BlocksSplit(files, 1, PresentBlock(fs, s, dir), i);
  }

  /** A skipped sample contributes no call. */
  lemma SkippedSampleNoCall(fs: Store, files: seq<string>, s: Stage, dir: string, i: nat)
    requires i < |files| && !SamplePresent(fs, dir, files[i])
    ensures Blocks(files, 1, PresentBlock(fs, s, dir))
            == Blocks(files[..i], 1, PresentBlock(fs, s, dir)) + Blocks(files[i + 1..], i + 2, PresentBlock(fs, s, dir))
  {
    BlocksSplit(files, 1, PresentBlock(fs, s, dir), i);
  }

  /**
   * The order of a test-runner run: it starts with building the runner and
   * cross-validation, ends with saving the reports, and in between makes only
   * sample calls, accuracy before anomalies before precision before stability.
   */
  lemma RunnerCallsShape(fs: Store, c: Config)
    ensures |RunnerCalls(fs, c)| >= 3
    ensures RunnerCalls(fs, c)[0].Eval? && RunnerCalls(fs, c)[0].call.NewRunner?
    ensures RunnerCalls(fs, c)[1] == Eval(CrossValidation(ExpertPaths(c).0, ExpertPaths(c).1))
    ensures RunnerCalls(fs, c)[|RunnerCalls(fs, c)| - 1] == Eval(SaveReports)
    ensures RunnerCalls(fs, c)
            == ConfigStages(fs, c, 0)
               + Blocks(c.samples.accuracy, 1, PresentBlock(fs, AccuracyStage, SampleDir(c)))
               + Blocks(c.samples.anomalies, 1, PresentBlock(fs, AnomaliesStage, SampleDir(c)))
               + Blocks(c.samples.precision, 1, PresentBlock(fs, PrecisionStage, SampleDir(c)))
               + Blocks(c.samples.stability, 1, PresentBlock(fs, StabilityStage, SampleDir(c)))
               + [Eval(SaveReports)]
  {
    var dir := SampleDir(c);
    var head := ConfigStages(fs, c, 0);
    var acc := Blocks(c.samples.accuracy, 1, PresentBlock(fs, AccuracyStage, dir));
    var anom := Blocks(c.samples.anomalies, 1, PresentBlock(fs, AnomaliesStage, dir));
    var prec := Blocks(c.samples.precision, 1, PresentBlock(fs, PrecisionStage, dir));
    var stab := Blocks(c.samples.stability, 1, PresentBlock(fs, StabilityStage, dir));
    assert ConfigStages(fs, c, 4) == head + acc + anom + prec + stab by {
      assert StageAt(1) == AccuracyStage && StageAt(2) == AnomaliesStage;
      assert StageAt(3) == PrecisionStage && StageAt(4) == StabilityStage;
      assert ConfigStages(fs, c, 1) == head + acc;
      assert ConfigStages(fs, c, 2) == ConfigStages(fs, c, 1) + anom;
      assert ConfigStages(fs, c, 3) == ConfigStages(fs, c, 2) + prec;
      assert ConfigStages(fs, c, 4) == ConfigStages(fs, c, 3) + stab;
    }
    assert |head| == 2 && head[0].Eval? && head[0].call.NewRunner?;
    assert head[1] == Eval(CrossValidation(ExpertPaths(c).0, ExpertPaths(c).1));
    FramedBy(RunnerCalls(fs, c), head, acc, anom, prec, stab, Eval(SaveReports));
  }

  /** A run made of a two-call head, four stages and a last call. */
  lemma FramedBy(plan: seq<Event>, head: seq<Event>, s1: seq<Event>, s2: seq<Event>, s3: seq<Event>, s4: seq<Event>,
                 last: Event)
    requires |head| == 2 && plan == head + s1 + s2 + s3 + s4 + [last]
    ensures |plan| >= 3 && plan[0] == head[0] && plan[1] == head[1] && plan[|plan| - 1] == last
  {
  }

  /**
   * The order of a Tagger run: build, cross-validate, then the distribution
   * exactly when a distribution file is named and present, then save.
   */
  lemma TaggerCallsShape(fs: Store, c: Config)
    ensures |TaggerCalls(fs, c)| == (if DistributionRuns(fs, c) then 4 else 3)
    ensures TaggerCalls(fs, c)[0] == Eval(NewTaggerRunner(OldModelPath(c), NewModelPath(c), OutputDir(c)))
    ensures TaggerCalls(fs, c)[1] == Eval(TaggerCrossValidation)
    ensures DistributionRuns(fs, c) ==> TaggerCalls(fs, c)[2].call.TaggerDistribution?
    ensures TaggerCalls(fs, c)[|TaggerCalls(fs, c)| - 1] == Eval(SaveTaggerReports)
    ensures forall e :: e in TaggerCalls(fs, c) ==> e.Eval? && !e.call.ValidationScores?
  {
    var runsDistribution := DistributionRuns(fs, c);
    var dist := if runsDistribution
                then TaggerDistribution(PathJoin(SampleDir(c), c.samples.distribution.value), CompanyList(c))
                else SaveTaggerReports;
    TaggerPrefixes(NewTaggerRunner(OldModelPath(c), NewModelPath(c), OutputDir(c)), dist, runsDistribution, TaggerCalls(fs, c));
  }

  // ---------------------------------------------------------------------------
  // Running a config

  /** One evaluator call at the end of the run so far; `ok` is false when it raises. */
  method Attempt(events: seq<Event>, c: Call, raiseAt: Option<nat>) returns (events': seq<Event>, ok: bool)
    requires !RaisesWithin(events, raiseAt)
    ensures events' == events + [Eval(c)]
    ensures ok <==> !RaisesWithin(events', raiseAt)
    ensures !ok ==> StoppedIn(events', events', raiseAt)
  {
    events' := events + [Eval(c)];
    ok := raiseAt != Some(|events|);
  }

  /**
   * One stage of a config's run: for each listed sample, in order, the call
   * tagged by the sample's position, or nothing when the file is missing.
   */
  method RunPresentStage(fs: Store, events: seq<Event>, files: seq<string>, s: Stage, dir: string, raiseAt: Option<nat>)
    returns (events': seq<Event>, ok: bool)
    requires !RaisesWithin(events, raiseAt)
    ensures ok ==> events' == events + Blocks(files, 1, PresentBlock(fs, s, dir)) && !RaisesWithin(events', raiseAt)
    ensures !ok ==> StoppedIn(events', events + Blocks(files, 1, PresentBlock(fs, s, dir)), raiseAt)
  {
    ghost var block := PresentBlock(fs, s, dir);
    events' := events;
    ok := true;
    var i := 0;
    while i < |files| && ok
      invariant 0 <= i <= |files|
      invariant ok ==> events' == events + Blocks(files[..i], 1, block) && !RaisesWithin(events', raiseAt)
      invariant !ok ==> StoppedIn(events', events + Blocks(files, 1, block), raiseAt)
    {
      var sample := PathJoin(dir, files[i]);
      if Exists(fs, sample) {
        var c := StageCall(s, dir, i + 1, files[i]);
        assert block(1 + i, files[i]) == [Eval(c)];
        BlockExtends(events, files, block, i, [Eval(c)]);
        events', ok := Attempt(events', c, raiseAt);
        if !ok {
          StoppedWithin(events', events + Blocks(files[..i + 1], 1, block), events + Blocks(files, 1, block), raiseAt);
        }
      } else {
        assert block(1 + i, files[i]) == [];
        BlocksStep(files, 1, block, i);
      }
      i := i + 1;
    }
    if ok {
      BlocksAll(files, 1, block);
    }
  }

  /** The n-th stage of a config's test-runner run, after the stages before it. */
  method RunConfigStage(fs: Store, events: seq<Event>, c: Config, n: nat, raiseAt: Option<nat>)
    returns (events': seq<Event>, ok: bool)
    requires 1 <= n <= 4
    requires events == ConfigStages(fs, c, n - 1) && !RaisesWithin(events, raiseAt)
    ensures ok ==> events' == ConfigStages(fs, c, n) && !RaisesWithin(events', raiseAt)
    ensures !ok ==> events' == Executed(RunnerCalls(fs, c), raiseAt) && RaisesWithin(RunnerCalls(fs, c), raiseAt)
  {
    ConfigStagesPrefix(fs, c, n);
    var s := StageAt(n);
    events', ok := RunPresentStage(fs, events, c.samples.Files(s), s, SampleDir(c), raiseAt);
    if !ok {
      StoppedInPlan(events', ConfigStages(fs, c, n), RunnerCalls(fs, c), raiseAt);
    }
  }

  /** The test-runner calls of a config, stopping at the first call that raises. */
  method RunRunnerCalls(fs: Store, c: Config, raiseAt: Option<nat>) returns (events: seq<Event>, ok: bool)
    ensures events == Executed(RunnerCalls(fs, c), raiseAt)
    ensures ok <==> !RaisesWithin(RunnerCalls(fs, c), raiseAt)
  {
    ghost var plan := RunnerCalls(fs, c);
    ConfigStagesPrefix(fs, c, 0);
    var (oldRules, newRules) := ExpertPaths(c);
    var cv := CrossValidation(oldRules, newRules);
    events, ok := Attempt([], NewRunner(OldModelPath(c), NewModelPath(c), OutputDir(c), oldRules, newRules), raiseAt);
    if !ok {
      PrefixGrows(events, events, [Eval(cv)]);
      StoppedInPlan(events, ConfigStages(fs, c, 0), plan, raiseAt);
      return;
    }
    events, ok := Attempt(events, cv, raiseAt);
    if !ok {
      StoppedInPlan(events, ConfigStages(fs, c, 0), plan, raiseAt);
      return;
    }
    events, ok := RunConfigStage(fs, events, c, 1, raiseAt);
    if !ok { return; }
    events, ok := RunConfigStage(fs, events, c, 2, raiseAt);
    if !ok { return; }
    events, ok := RunConfigStage(fs, events, c, 3, raiseAt);
    if !ok { return; }
    events, ok := RunConfigStage(fs, events, c, 4, raiseAt);
    if !ok { return; }
    events, ok := Attempt(events, SaveReports, raiseAt);
    if !ok {
      StoppedInPlan(events, plan, plan, raiseAt);
    }
  }

  /** The Tagger calls of a config, stopping at the first call that raises. */
  method RunTaggerCalls(fs: Store, c: Config, raiseAt: Option<nat>) returns (events: seq<Event>, ok: bool)
    ensures events == Executed(TaggerCalls(fs, c), raiseAt)
    ensures ok <==> !RaisesWithin(TaggerCalls(fs, c), raiseAt)
  {
    var runner := NewTaggerRunner(OldModelPath(c), NewModelPath(c), OutputDir(c));
    var dir := SampleDir(c);
    var distribution := c.samples.distribution;
    var runsDistribution := distribution.Some? && distribution.value != "" && Exists(fs, PathJoin(dir, distribution.value));
    var dist := if runsDistribution then TaggerDistribution(PathJoin(dir, distribution.value), CompanyList(c)) else SaveTaggerReports;
    assert runsDistribution == DistributionRuns(fs, c);
    events, ok := AttemptTagger(runner, dist, runsDistribution, raiseAt);
  }

  /** The Tagger calls once built: the runner, cross-validation, the distribution when it runs, the reports. */
  method AttemptTagger(runner: Call, dist: Call, runsDistribution: bool, raiseAt: Option<nat>) returns (events: seq<Event>, ok: bool)
    ensures var plan := [Eval(runner), Eval(TaggerCrossValidation)] + (if runsDistribution then [Eval(dist)] else [])
                        + [Eval(SaveTaggerReports)];
            events == Executed(plan, raiseAt) && (ok <==> !RaisesWithin(plan, raiseAt))
  {
    ghost var plan := [Eval(runner), Eval(TaggerCrossValidation)] + (if runsDistribution then [Eval(dist)] else [])
                      + [Eval(SaveTaggerReports)];
    TaggerPrefixes(runner, dist, runsDistribution, plan);
    events, ok := Attempt([], runner, raiseAt);
    if !ok {
      StoppedInPlan(events, events, plan, raiseAt);
      return;
    }
    events, ok := Attempt(events, TaggerCrossValidation, raiseAt);
    if !ok {
      StoppedInPlan(events, events, plan, raiseAt);
      return;
    }
    if runsDistribution {
      events, ok := Attempt(events, dist, raiseAt);
      if !ok {
        StoppedInPlan(events, events, plan, raiseAt);
        return;
      }
    }
    events, ok := Attempt(events, SaveTaggerReports, raiseAt);
    if !ok {
      StoppedInPlan(events, plan, plan, raiseAt);
    }
  }

  /** A Tagger run's calls, prefix by prefix. */
  lemma TaggerPrefixes(runner: Call, dist: Call, runsDistribution: bool, plan: seq<Event>)
    requires plan == [Eval(runner), Eval(TaggerCrossValidation)] + (if runsDistribution then [Eval(dist)] else [])
                     + [Eval(SaveTaggerReports)]
    ensures [Eval(runner)] <= plan && [Eval(runner), Eval(TaggerCrossValidation)] <= plan
    ensures runsDistribution ==> [Eval(runner), Eval(TaggerCrossValidation), Eval(dist)] <= plan
                                 && plan == [Eval(runner), Eval(TaggerCrossValidation), Eval(dist), Eval(SaveTaggerReports)]
    ensures !runsDistribution ==> plan == [Eval(runner), Eval(TaggerCrossValidation), Eval(SaveTaggerReports)]
  {
  }

  /**
   * The result of running a config against the share `fs`: an early return
   * leaves the share as it was and calls nothing; otherwise the output folder
   * is made and the calls run until one raises.
   */
  function ConfigRun(fs: Store, c: Config, raiseAt: Option<nat>): (r: (Store, seq<Event>, Outcome))
    requires fs.Valid()
    ensures r.0.Valid()
    ensures forall k :: k in fs.data ==> k in r.0.data && r.0.data[k] == fs.data[k]
    ensures (r.2.Finished? || r.2.Failed?) <==> Precheck(fs, c).None?
  {
    match Precheck(fs, c)
    case Some(o) => (fs, [], o)
    case None =>
      var fs1 := MakeDirs(fs, OutputDir(c));
      var calls := ConfigCalls(fs1, c);
      (fs1, Executed(calls, raiseAt), if RaisesWithin(calls, raiseAt) then Failed else Finished)
  }

  /**
   * An exception from the evaluator is caught: the run ends as `Failed`
   * exactly when some call raised, and the calls made are the attempted ones
   * up to that call.
   */
  lemma ExceptionsCaught(fs: Store, c: Config, raiseAt: Option<nat>)
    requires fs.Valid() && Precheck(fs, c).None?
    ensures var r := ConfigRun(fs, c, raiseAt);
            && (r.2 == Failed <==> RaisesWithin(r.1, raiseAt))
            && r.1 <= ConfigCalls(r.0, c)
            && IsDir(r.0, OutputDir(c))
  {
  }

  /** `run_from_config`: the checks, the output folder, then the evaluator calls. */
  method RunFromConfig(fs: Store, c: Config, raiseAt: Option<nat>) returns (fs': Store, events: seq<Event>, outcome: Outcome)
    requires fs.Valid()
    ensures (fs', events, outcome) == ConfigRun(fs, c, raiseAt)
  {
    var base := BasePath(c);
    if !Exists(fs, base) {
      return fs, [], MissingBasePath(base);
    }
    var checks := ModelChecks(c);
    var k := 0;
    while k < |checks|
      invariant 0 <= k <= |checks|
      invariant FirstMissing(fs, checks) == FirstMissing(fs, checks[k..])
    {
      assert checks[k..][1..] == checks[k + 1..];
      if !Exists(fs, checks[k].0) {
        return fs, [], MissingModel(checks[k].1, checks[k].0);
      }
      k := k + 1;
    }
    assert checks[k..] == [];
    fs' := MakeDirs(fs, OutputDir(c));
    var ok;
    if !IsTagger(c) {
      events, ok := RunRunnerCalls(fs', c, raiseAt);
    } else {
      events, ok := RunTaggerCalls(fs', c, raiseAt);
    }
    outcome := if ok then Finished else Failed;
  }

  // ---------------------------------------------------------------------------
  // The queue of configs

  /** A config file: a `.json` name that is not a `.done.json` name. */
  predicate IsConfigName(f: string) {
    EndsWith(f, ".json") && !EndsWith(f, ".done.json")
  }

  /** The marker of a config name: every `.json` in it replaced by `.done`. */
  function MarkerName(f: string): string {
    ReplaceAll(f, ".json", ".done")
  }

  /** `f` in folder `dir` is a config that has no marker yet. */
  predicate IsPending(fs: Store, dir: string, f: string) {
    IsConfigName(f) && !Exists(fs, PathJoin(dir, MarkerName(f)))
  }

  function PendingIn(fs: Store, dir: string): string -> bool {
    f => IsPending(fs, dir, f)
  }

  /** Nothing is listed in a folder that does not exist. */
  lemma ListDirOfMissing(fs: Store, dir: string)
    requires fs.Valid() && !Exists(fs, dir)
    ensures ListDir(fs, dir) == []
  {
    var r := ListDir(fs, dir);
    if |r| > 0 {
      var n := r[0];
      assert Exists(fs, dir + "/" + n);
      assert StartsWith(dir + "/" + n, dir + "/");
    }
  }

  /**
   * The names of the pending configs in folder `dir`, in listing order: a
   * missing folder has none.
   */
  function PendingNames(fs: Store, dir: string): (r: seq<string>)
    requires fs.Valid()
    ensures Distinct(r)
    ensures forall f :: f in r <==> f in ListDir(fs, dir) && IsPending(fs, dir, f)
  {
    if !Exists(fs, dir) then
      ListDirOfMissing(fs, dir);
      []
    else
      FilterDistinct(ListDir(fs, dir), PendingIn(fs, dir));
      Filter(ListDir(fs, dir), PendingIn(fs, dir))
  }

  /** The paths of the names in folder `dir`. */
  function Paths(dir: string, names: seq<string>): (r: seq<string>)
    ensures |r| == |names|
    ensures forall i :: 0 <= i < |names| ==> r[i] == PathJoin(dir, names[i])
  {
    seq(|names|, i requires 0 <= i < |names| => PathJoin(dir, names[i]))
  }

  /** The kept paths among one more name are those among the earlier names, then that name's path if kept. */
  lemma KeptPathsStep(dir: string, names: seq<string>, i: nat, keep: string -> bool)
    requires i < |names|
    ensures Paths(dir, Filter(names[..i + 1], keep))
         == Paths(dir, Filter(names[..i], keep)) + (if keep(names[i]) then [PathJoin(dir, names[i])] else [])
  {
    assert names[..i + 1] == names[..i] + [names[i]];
    FilterAppend(names[..i], names[i], keep);
  }

  /** Keeps, in order, the paths of the pending configs among `names`. */
  method CollectPending(fs: Store, dir: string, names: seq<string>) returns (configs: seq<string>)
    ensures configs == Paths(dir, Filter(names, PendingIn(fs, dir)))
  {
    ghost var keep := PendingIn(fs, dir);
    configs := [];
    var i := 0;
    while i < |names|
      invariant 0 <= i <= |names|
      invariant configs == Paths(dir, Filter(names[..i], keep))
    {
      var f := names[i];
      var pending := false;
      if EndsWith(f, ".json") && !EndsWith(f, ".done.json") {
        var doneMarker := ReplaceAll(f, ".json", ".done");
        pending := !Exists(fs, PathJoin(dir, doneMarker));
      }
      assert pending == keep(f);
      KeptPathsStep(dir, names, i, keep);
      if pending {
        configs := configs + [PathJoin(dir, f)];
      }
      i := i + 1;
    }
    assert names[..i] == names;
  }

  /** `find_pending_configs`: the paths of the pending configs, in listing order. */
  method FindPendingConfigs(fs: Store, dir: string) returns (configs: seq<string>)
    requires fs.Valid()
    ensures configs == Paths(dir, PendingNames(fs, dir))
  {
    if !Exists(fs, dir) {
      return [];
    }
    configs := CollectPending(fs, dir, ListDir(fs, dir));
  }

  /**
   * The intended marker of a config path: `.json` replaced in the file name
   * only, so that the marker lands beside the config.
   */
  function DonePath(p: string): string {
    PathJoin(Dirname(p), MarkerName(Basename(p)))
  }

  /** For a config found in folder `dir`, the intended marker is its listed name's marker in the same folder. */
  lemma DonePathOfConfig(dir: string, f: string)
    requires |dir| > 0 && !EndsWith(dir, "/") && '/' !in f && f != ""
    ensures PathJoin(dir, f) == dir + "/" + f
    ensures DonePath(PathJoin(dir, f)) == PathJoin(dir, MarkerName(f))
  {
    assert !StartsWith(f, "/") by {
      assert f[0] != '/';
    }
    assert PathJoin(dir, f) == dir + "/" + f;
    DirnameOfDirectChild(dir, f);
    BasenameAfterSeparator(dir, f);
    assert Basename(f) == f;
  }

  /** Once its intended marker is written, a config is no longer pending, however much else is added. */
  lemma MarkedNotPending(fs: Store, fs': Store, dir: string, f: string)
    requires fs.Valid() && fs'.Valid()
    requires |dir| > 0 && !EndsWith(dir, "/") && '/' !in f && f != ""
    requires DonePath(PathJoin(dir, f)) in fs.data
    requires forall k :: k in fs.data ==> k in fs'.data
    ensures f !in PendingNames(fs', dir)
  {
    DonePathOfConfig(dir, f);
  }

  /** As written: `.json` is replaced throughout the path, folder names included. */
  function DonePathAsWritten(p: string): string {
    ReplaceAll(p, ".json", ".done")
  }

  /** `open(p, "w")` finds the folder it is to create `p` in. */
  predicate Writable(fs: Store, p: string) {
    IsDir(fs, Dirname(p))
  }

  /**
   * `mark_config_done`: writes `done` at the as-written marker path; when the
   * folder of that path does not exist, `open` raises and nothing is written.
   */
  method MarkConfigDone(fs: Store, configPath: string) returns (fs': Store, written: bool)
    requires fs.Valid()
    ensures fs'.Valid()
    ensures written <==> Writable(fs, DonePathAsWritten(configPath))
    ensures written ==> fs' == Put(fs, DonePathAsWritten(configPath), "done")
    ensures !written ==> fs' == fs
  {
    var donePath := DonePathAsWritten(configPath);
    written := Writable(fs, donePath);
    if written {
      fs' := Put(fs, donePath, "done");
    } else {
      fs' := fs;
    }
  }

  /** The marker of a name without `/` has the name's length and no `/` either. */
  lemma MarkerNameShape(f: string)
    requires '/' !in f
    ensures |MarkerName(f)| == |f| && '/' !in MarkerName(f)
  {
    ReplaceAllLength(f, ".json", ".done");
    ReplaceAllFree(f, ".json", ".done", '/');
  }

  /** The marker of a name that does not start with `/` does not either. */
  lemma MarkerNotAbsolute(f: string)
    requires '/' !in f
    ensures !StartsWith(MarkerName(f), "/")
  {
    var m := MarkerName(f);
    if |f| < 5 {
      assert m == f;
      if |f| > 0 {
        assert f[0] in f;
      }
    } else if f[..5] == ".json" {
      assert m == ".done" + ReplaceAll(f[5..], ".json", ".done");
      assert m[..1] == ".";
    } else {
      assert m == [f[0]] + ReplaceAll(f[1..], ".json", ".done");
      assert f[0] in f;
      assert m[..1] == [f[0]];
    }
  }

  /**
   * The as-written marker replaces in the folder path as well as in the file
   * name; it is the intended marker exactly when the folder path holds no
   * `.json`.
   */
  lemma AsWrittenMarker(dir: string, f: string)
    requires |dir| > 0 && !EndsWith(dir, "/") && '/' !in f && f != ""
    ensures DonePathAsWritten(PathJoin(dir, f)) == ReplaceAll(dir, ".json", ".done") + "/" + MarkerName(f)
    ensures DonePathAsWritten(PathJoin(dir, f)) == DonePath(PathJoin(dir, f)) <==> !Contains(dir, ".json")
  {
    DonePathOfConfig(dir, f);
    AsWrittenSplit(dir, f);
    MarkerNotAbsolute(f);
    var moved := ReplaceAll(dir, ".json", ".done");
    assert DonePath(PathJoin(dir, f)) == dir + "/" + MarkerName(f);
    if !Contains(dir, ".json") {
      ReplaceAllAbsent(dir, ".json", ".done");
    } else {
      ReplaceAllLength(dir, ".json", ".done");
      ReplaceAllChanges(dir, ".json", ".done");
      SameTailDiffers(moved, dir, MarkerName(f));
    }
  }

  /** Two different folder paths of one length give different paths for the same name. */
  lemma SameTailDiffers(a: string, b: string, m: string)
    requires |a| == |b| && a != b
    ensures a + "/" + m != b + "/" + m
  {
    assert (a + "/" + m)[..|a|] == a;
    assert (b + "/" + m)[..|b|] == b;
  }

  lemma AsWrittenSplit(dir: string, f: string)
    ensures DonePathAsWritten(dir + "/" + f) == ReplaceAll(dir, ".json", ".done") + "/" + MarkerName(f)
  {
    ReplaceAllSplit(dir, '/', f, ".json", ".done");
  }

  /** A name listed in `dir` lies in a folder that exists. */
  lemma ListedFolderExists(fs: Store, dir: string, f: string)
    requires fs.Valid() && f in ListDir(fs, dir)
    ensures IsDir(fs, dir)
  {
    var p := dir + "/" + f;
    assert StartsWith(p, dir + "/");
    if p !in fs.data {
      var k :| k in fs.data && StartsWith(k, p + "/");
      assert k[..|dir + "/"|] == (p + "/")[..|dir + "/"|];
    }
  }

  /**
   * In a folder whose path holds no `.json`, the as-written marker of a
   * listed config goes to that same folder, which exists.
   */
  lemma ListedMarkerWritable(fs: Store, dir: string, f: string)
    requires fs.Valid() && |dir| > 0 && !EndsWith(dir, "/") && !Contains(dir, ".json")
    requires f in ListDir(fs, dir)
    ensures Writable(fs, DonePathAsWritten(PathJoin(dir, f)))
  {
    AsWrittenMarker(dir, f);
    ReplaceAllAbsent(dir, ".json", ".done");
    MarkerNameShape(f);
    DirnameOfDirectChild(dir, MarkerName(f));
    ListedFolderExists(fs, dir, f);
  }

  /**
   * In a folder whose path holds no `.json`, writing the as-written marker of
   * a config takes it off the queue.
   */
  lemma MarkedAsWrittenNotPending(fs': Store, dir: string, f: string)
    requires fs'.Valid()
    requires |dir| > 0 && !EndsWith(dir, "/") && !Contains(dir, ".json") && '/' !in f && f != ""
    requires DonePathAsWritten(PathJoin(dir, f)) in fs'.data
    ensures f !in PendingNames(fs', dir)
  {
    AsWrittenMarker(dir, f);
    MarkedNotPending(fs', fs', dir, f);
  }

  /** The as-written marker of the config `a.json` in folder `/q.json`. */
  lemma AsWrittenMarkerOfExample(dir: string, f: string)
    requires dir == "/q.json" && f == "a.json"
    ensures DonePathAsWritten(PathJoin(dir, f)) == "/q.done/a.done"
  {
    assert !StartsWith(f, "/") by {
      assert f[..1] == "a";
    }
    assert !EndsWith(dir, "/") by {
      assert dir[|dir| - 1..] == "n";
    }
    assert PathJoin(dir, f) == dir + "/" + f;
    AsWrittenSplit(dir, f);
    ExampleMarker(f);
    assert ReplaceAll(".json", ".json", ".done") == ".done" + ReplaceAll("", ".json", ".done");
    assert ReplaceAll("q.json", ".json", ".done") == "q" + ReplaceAll(".json", ".json", ".done");
    assert ReplaceAll("/q.json", ".json", ".done") == "/" + ReplaceAll("q.json", ".json", ".done");
    assert ReplaceAll(dir, ".json", ".done") == "/q.done";
  }

  /** The as-written marker `/q.done/a.done` is to be created in the folder `/q.done`. */
  lemma ExampleMarkerFolder(p: string, d: string, n: string)
    requires p == "/q.done/a.done" && d == "/q.done" && n == "a.done"
    ensures Dirname(p) == d
  {
    assert p == d + "/" + n;
    DirnameOfDirectChild(d, n);
  }

  lemma ExampleMarker(f: string)
    requires f == "a.json"
    ensures MarkerName(f) == "a.done"
  {
    assert ReplaceAll(".json", ".json", ".done") == ".done" + ReplaceAll("", ".json", ".done");
    assert ReplaceAll("a.json", ".json", ".done") == "a" + ReplaceAll(".json", ".json", ".done");
  }

  /** `a.json` is listed in `/q.json` while it is stored. */
  lemma ExampleListed(st: Store, dir: string, f: string)
    requires dir == "/q.json" && f == "a.json"
    requires st.Valid() && "/q.json/a.json" in st.data
    ensures f in ListDir(st, dir)
  {
    assert dir + "/" + f == "/q.json/a.json";
  }

  /** The keys of the example stores: the config, a file in `/q.done`, and the as-written marker. */
  predicate ExampleKey(k: string) {
    k == "/q.json/a.json" || k == "/q.done/log.txt" || k == "/q.done/a.done"
  }

  /** `a.json` has no marker in `/q.json` while only example keys are stored. */
  lemma ExampleUnmarked(st: Store, dir: string, f: string)
    requires dir == "/q.json" && f == "a.json"
    requires forall k :: k in st.data ==> ExampleKey(k)
    ensures !Exists(st, PathJoin(dir, MarkerName(f)))
  {
    ExampleMarker(f);
    var m := MarkerName(f);
    assert !StartsWith(m, "/") by {
      assert m[..1] == "a";
    }
    assert !EndsWith(dir, "/") by {
      assert dir[|dir| - 1..] == "n";
    }
    assert PathJoin(dir, m) == dir + "/" + m;
    assert PathJoin(dir, m) == "/q.json/a.done";
    assert !IsDir(st, "/q.json/a.done") by {
      forall k | k in st.data
        ensures !StartsWith(k, "/q.json/a.done/")
      {
        if k != "/q.json/a.json" {
          assert k[3] == 'd';
        }
      }
    }
  }

  /** `a.json` is pending in `/q.json` while it and only example keys are stored. */
  lemma ExamplePending(st: Store, dir: string, f: string)
    requires dir == "/q.json" && f == "a.json"
    requires st.Valid() && "/q.json/a.json" in st.data
    requires forall k :: k in st.data ==> ExampleKey(k)
    ensures f in PendingNames(st, dir)
  {
    ExampleListed(st, dir, f);
    ExampleUnmarked(st, dir, f);
    assert EndsWith(f, ".json") && !EndsWith(f, ".done.json");
  }

  /** With no key below `/q.done/`, the as-written marker of `a.json` in `/q.json` cannot be created. */
  lemma ExampleMarkerUnwritable(st: Store, dir: string, f: string)
    requires dir == "/q.json" && f == "a.json"
    requires forall k :: k in st.data ==> !StartsWith(k, "/q.done/")
    ensures !Writable(st, DonePathAsWritten(PathJoin(dir, f)))
  {
    AsWrittenMarkerOfExample(dir, f);
    ExampleMarkerFolder(DonePathAsWritten(PathJoin(dir, f)), "/q.done", "a.done");
  }

  /** With a file in `/q.done`, the as-written marker of `a.json` in `/q.json` can be created. */
  lemma ExampleMarkerWritable(st: Store, dir: string, f: string)
    requires dir == "/q.json" && f == "a.json"
    requires "/q.done/log.txt" in st.data
    ensures Writable(st, DonePathAsWritten(PathJoin(dir, f)))
    ensures DonePathAsWritten(PathJoin(dir, f)) == "/q.done/a.done"
  {
    AsWrittenMarkerOfExample(dir, f);
    ExampleMarkerFolder(DonePathAsWritten(PathJoin(dir, f)), "/q.done", "a.done");
    assert StartsWith("/q.done/log.txt", "/q.done" + "/");
  }

  /**
   * In a config folder `/q.json` with no folder `/q.done`, the config
   * `a.json` is pending and marking it raises: the folder of the as-written
   * marker does not exist.
   */
  lemma AsWrittenMarkerRaises(fs: Store, dir: string, f: string)
    requires dir == "/q.json" && f == "a.json"
    requires fs.Valid() && fs.data.Keys == {"/q.json/a.json"}
    ensures f in PendingNames(fs, dir)
    ensures !Writable(fs, DonePathAsWritten(PathJoin(dir, f)))
  {
    assert "/q.json/a.json" in fs.data.Keys;
    ExamplePending(fs, dir, f);
    forall k | k in fs.data
      ensures !StartsWith(k, "/q.done/")
    {
      assert k in fs.data.Keys;
      assert k[3] == 'j';
    }
    ExampleMarkerUnwritable(fs, dir, f);
  }

  /**
   * In a config folder `/q.json` beside an existing folder `/q.done`, the
   * config `a.json` is pending, marking it writes `/q.done/a.done`, and the
   * config stays pending, so every later scan runs it again.
   */
  lemma AsWrittenMarkerMissesConfig(fs: Store, dir: string, f: string)
    requires dir == "/q.json" && f == "a.json"
    requires fs.Valid() && fs.data.Keys == {"/q.json/a.json", "/q.done/log.txt"}
    ensures f in PendingNames(fs, dir)
    ensures Writable(fs, DonePathAsWritten(PathJoin(dir, f)))
    ensures f in PendingNames(Put(fs, DonePathAsWritten(PathJoin(dir, f)), "done"), dir)
  {
    assert "/q.json/a.json" in fs.data.Keys && "/q.done/log.txt" in fs.data.Keys;
    assert forall k :: k in fs.data ==> ExampleKey(k) by {
      forall k | k in fs.data
        ensures ExampleKey(k)
      {
        assert k in fs.data.Keys;
      }
    }
    ExamplePending(fs, dir, f);
    ExampleMarkerWritable(fs, dir, f);
    var fs' := Put(fs, "/q.done/a.done", "done");
    ExamplePending(fs', dir, f);
  }

  // ---------------------------------------------------------------------------
  // Drive modes

  /**
   * What processing one config recorded: its path, the calls made, how the
   * run ended, and whether its marker was written.
   */
  datatype RunRecord = RunRecord(config: string, events: seq<Event>, outcome: Outcome, marked: bool)

  /** The outside inputs of a drive: what each config file parses to, and where its evaluator raises. */
  datatype Inputs = Inputs(load: string -> Config, raises: string -> Option<nat>)

  /**
   * Processing one config: run it, then write its marker as written; when
   * the marker cannot be written the exception ends the drive.
   */
  function Process(fs: Store, path: string, inputs: Inputs): (r: (Store, RunRecord))
    requires fs.Valid()
    ensures r.0.Valid()
    ensures r.1.config == path
    ensures r.1.marked ==> DonePathAsWritten(path) in r.0.data
    ensures Writable(fs, DonePathAsWritten(path)) ==> r.1.marked
    ensures forall k :: k in fs.data ==> k in r.0.data
  {
    var run := ConfigRun(fs, inputs.load(path), inputs.raises(path));
    var marker := DonePathAsWritten(path);
    assert Writable(fs, marker) ==> Writable(run.0, marker) by {
      if Writable(fs, marker) {
        var k :| k in fs.data && StartsWith(k, Dirname(marker) + "/");
        assert k in run.0.data;
      }
    }
    if Writable(run.0, marker) then (Put(run.0, marker, "done"), RunRecord(path, run.1, run.2, true))
    else (run.0, RunRecord(path, run.1, run.2, false))
  }

  /** Runs one config, then marks it done. */
  method ProcessConfig(fs: Store, path: string, inputs: Inputs) returns (fs': Store, run: RunRecord)
    requires fs.Valid()
    ensures (fs', run) == Process(fs, path, inputs)
  {
    var fs1, events, outcome := RunFromConfig(fs, inputs.load(path), inputs.raises(path));
    var marked;
    fs', marked := MarkConfigDone(fs1, path);
    run := RunRecord(path, events, outcome, marked);
  }

  /** The first n configs were processed in order, each from the store the previous one left. */
  ghost predicate ProcessedInOrder(states: seq<Store>, runs: seq<RunRecord>, configs: seq<string>, inputs: Inputs, n: nat)
    requires n <= |configs| && |states| == n + 1 && |runs| == n
  {
    forall j :: 0 <= j < n ==>
      states[j].Valid() && Process(states[j], configs[j], inputs) == (states[j + 1], runs[j])
  }

  /**
   * `runs` and `states` (the store before each config, then the store at
   * the end) are a drain of `configs` from `fs`: the configs are processed
   * in order, each from the store the previous one left; every run but the
   * last wrote its marker, and the drain ends before the last config only
   * when a marker could not be written.
   */
  ghost predicate DrainOf(fs: Store, configs: seq<string>, inputs: Inputs, fs': Store, runs: seq<RunRecord>, states: seq<Store>) {
    && |runs| <= |configs| && |states| == |runs| + 1
    && states[0] == fs && states[|runs|] == fs'
    && ProcessedInOrder(states, runs, configs, inputs, |runs|)
    && (forall j :: 0 <= j < |runs| - 1 ==> runs[j].marked)
    && (|runs| < |configs| ==> |runs| > 0 && !runs[|runs| - 1].marked)
  }

  /** Processing the next config from the last store extends the chain by one. */
  lemma ProcessedNext(states: seq<Store>, runs: seq<RunRecord>, configs: seq<string>, inputs: Inputs, n: nat, fs2: Store, run: RunRecord)
    requires n < |configs| && |states| == n + 1 && |runs| == n
    requires ProcessedInOrder(states, runs, configs, inputs, n)
    requires states[n].Valid() && Process(states[n], configs[n], inputs) == (fs2, run)
    ensures ProcessedInOrder(states + [fs2], runs + [run], configs, inputs, n + 1)
  {
    var states', runs' := states + [fs2], runs + [run];
    forall j | 0 <= j < n + 1
      ensures states'[j].Valid() && Process(states'[j], configs[j], inputs) == (states'[j + 1], runs'[j])
    {
      if j < n {
        assert states'[j] == states[j] && states'[j + 1] == states[j + 1] && runs'[j] == runs[j];
      }
    }
  }

  /** Every key of `a` is a key of `b`. */
  ghost predicate Grows(a: Store, b: Store) {
    forall k :: k in a.data ==> k in b.data
  }

  /** Along a drain the store only grows, and each marker written is in the store that follows it. */
  lemma DrainGrows(fs: Store, configs: seq<string>, inputs: Inputs, fs': Store, runs: seq<RunRecord>, states: seq<Store>)
    requires fs.Valid()
    requires DrainOf(fs, configs, inputs, fs', runs, states)
    ensures forall i :: 0 <= i < |states| - 1 ==> Grows(states[i], states[i + 1])
    ensures forall i :: 0 <= i < |runs| && runs[i].marked ==> DonePathAsWritten(configs[i]) in states[i + 1].data
    ensures forall i :: 0 <= i < |states| ==> states[i].Valid()
  {
    forall i | 0 <= i < |runs|
      ensures Grows(states[i], states[i + 1])
    {
      assert Process(states[i], configs[i], inputs) == (states[i + 1], runs[i]);
    }
    forall i | 0 <= i < |runs| && runs[i].marked
      ensures DonePathAsWritten(configs[i]) in states[i + 1].data
    {
      assert Process(states[i], configs[i], inputs) == (states[i + 1], runs[i]);
    }
    forall i | 0 <= i < |states|
      ensures states[i].Valid()
    {
      if i > 0 {
        assert Process(states[i - 1], configs[i - 1], inputs) == (states[i], runs[i - 1]);
      }
    }
  }

  /** Along a chain of stores that only grow, a key stored on the way is still there later. */
  lemma {:induction false} ChainKeepsKey(states: seq<Store>, j: nat, m: nat, k: string)
    requires j <= m < |states|
    requires forall i :: 0 <= i < |states| - 1 ==> Grows(states[i], states[i + 1])
    requires k in states[j].data
    ensures k in states[m].data
    decreases m - j
  {
    if j < m {
      ChainKeepsKey(states, j + 1, m, k);
    }
  }

  /**
   * Every config of one scan, in order: each is run, and marked done after
   * its run returns, whatever the outcome; a marker that cannot be written
   * raises and ends the drain.
   */
  method DrainConfigs(fs: Store, configs: seq<string>, inputs: Inputs)
    returns (fs': Store, runs: seq<RunRecord>, ghost states: seq<Store>)
    requires fs.Valid()
    ensures fs'.Valid()
    ensures DrainOf(fs, configs, inputs, fs', runs, states)
    ensures forall i :: 0 <= i < |runs| && runs[i].marked ==> DonePathAsWritten(configs[i]) in fs'.data
    ensures forall k :: k in fs.data ==> k in fs'.data
  {
    fs' := fs;
    runs := [];
    states := [fs];
    var i := 0;
    var stopped := false;
    while i < |configs| && !stopped
      invariant 0 <= i <= |configs|
      invariant fs'.Valid()
      invariant |runs| == i && |states| == i + 1
      invariant states[0] == fs && states[i] == fs'
      invariant ProcessedInOrder(states, runs, configs, inputs, i)
      invariant !stopped ==> forall j :: 0 <= j < i ==> runs[j].marked
      invariant stopped ==> i > 0 && !runs[i - 1].marked && forall j :: 0 <= j < i - 1 ==> runs[j].marked
    {
      var fs2, run := ProcessConfig(fs', configs[i], inputs);
      ProcessedNext(states, runs, configs, inputs, i, fs2, run);
      MarkedAppend(runs, run);
      fs' := fs2;
      runs := runs + [run];
      states := states + [fs2];
      stopped := !run.marked;
      i := i + 1;
    }
    DrainKeeps(fs, configs, inputs, fs', runs, states);
  }

  /** Appending a run to runs that all wrote their markers. */
  lemma MarkedAppend(runs: seq<RunRecord>, run: RunRecord)
    requires forall j :: 0 <= j < |runs| ==> runs[j].marked
    ensures (runs + [run])[|runs|] == run
    ensures forall j :: 0 <= j < |runs| ==> (runs + [run])[j].marked
    ensures run.marked ==> forall j :: 0 <= j < |runs| + 1 ==> (runs + [run])[j].marked
  {
  }

  /** At the end of a drain every marker written is still there, and so is every key stored before it. */
  lemma DrainKeeps(fs: Store, configs: seq<string>, inputs: Inputs, fs': Store, runs: seq<RunRecord>, states: seq<Store>)
    requires fs.Valid()
    requires DrainOf(fs, configs, inputs, fs', runs, states)
    ensures fs'.Valid()
    ensures forall i :: 0 <= i < |runs| && runs[i].marked ==> DonePathAsWritten(configs[i]) in fs'.data
    ensures Grows(fs, fs')
  {
    DrainGrows(fs, configs, inputs, fs', runs, states);
    forall j | 0 <= j < |runs| && runs[j].marked
      ensures DonePathAsWritten(configs[j]) in fs'.data
    {
      ChainKeepsKey(states, j + 1, |runs|, DonePathAsWritten(configs[j]));
    }
    forall k | k in fs.data
      ensures k in fs'.data
    {
      ChainKeepsKey(states, 0, |runs|, k);
    }
  }

  /** Along a drain of a scan of a folder whose path holds no `.json`, every marker can be written. */
  lemma DrainWritesEveryMarker(scanned: Store, dir: string, inputs: Inputs, fs': Store, runs: seq<RunRecord>, states: seq<Store>)
    requires scanned.Valid()
    requires |dir| > 0 && !EndsWith(dir, "/") && !Contains(dir, ".json")
    requires DrainOf(scanned, Paths(dir, PendingNames(scanned, dir)), inputs, fs', runs, states)
    ensures forall i :: 0 <= i < |runs| ==> runs[i].marked
  {
    var names := PendingNames(scanned, dir);
    var configs := Paths(dir, names);
    DrainGrows(scanned, configs, inputs, fs', runs, states);
    forall i | 0 <= i < |runs|
      ensures runs[i].marked
    {
      var marker := DonePathAsWritten(configs[i]);
      ListedMarkerWritable(scanned, dir, names[i]);
      var k :| k in scanned.data && StartsWith(k, Dirname(marker) + "/");
      ChainKeepsKey(states, 0, i, k);
      assert Writable(states[i], marker);
      assert Process(states[i], configs[i], inputs) == (states[i + 1], runs[i]);
    }
  }

  /**
   * Draining the configs pending at a scan of a folder whose path holds no
   * `.json` runs every one of them, writes every marker, and leaves none of
   * them pending.
   */
  lemma DrainCompletes(scanned: Store, dir: string, inputs: Inputs, fs': Store, runs: seq<RunRecord>, states: seq<Store>)
    requires scanned.Valid()
    requires |dir| > 0 && !EndsWith(dir, "/") && !Contains(dir, ".json")
    requires DrainOf(scanned, Paths(dir, PendingNames(scanned, dir)), inputs, fs', runs, states)
    ensures fs'.Valid()
    ensures |runs| == |PendingNames(scanned, dir)|
    ensures forall r :: r in runs ==> r.marked
    ensures forall f :: f in PendingNames(scanned, dir) ==> f !in PendingNames(fs', dir)
  {
    var names := PendingNames(scanned, dir);
    var configs := Paths(dir, names);
    DrainWritesEveryMarker(scanned, dir, inputs, fs', runs, states);
    assert |runs| == |names|;
    DrainKeeps(scanned, configs, inputs, fs', runs, states);
    MarkersTakeOffQueue(fs', dir, names);
  }

  /** Names whose as-written markers are all stored, in a folder whose path holds no `.json`, are not pending. */
  lemma MarkersTakeOffQueue(fs': Store, dir: string, names: seq<string>)
    requires fs'.Valid()
    requires |dir| > 0 && !EndsWith(dir, "/") && !Contains(dir, ".json")
    requires forall f :: f in names ==> '/' !in f && f != ""
    requires forall i :: 0 <= i < |names| ==> DonePathAsWritten(Paths(dir, names)[i]) in fs'.data
    ensures forall f :: f in names ==> f !in PendingNames(fs', dir)
  {
    forall f | f in names
      ensures f !in PendingNames(fs', dir)
    {
      var i :| 0 <= i < |names| && names[i] == f;
      assert Paths(dir, names)[i] == PathJoin(dir, f);
      MarkedAsWrittenNotPending(fs', dir, f);
    }
  }

  /**
   * What watch mode leaves: `scanned` is the scan that is drained (`fs`
   * itself when something is already pending there), and `runs` with
   * `states` are a drain of its pending configs; in a folder whose path holds
   * no `.json`, every config pending at that scan is run, marked and no
   * longer pending.
   */
  ghost predicate Watched(fs: Store, dir: string, inputs: Inputs, fs': Store, runs: seq<RunRecord>, scanned: Store, states: seq<Store>)
    requires fs.Valid()
  {
    && scanned.Valid() && fs'.Valid()
    && (PendingNames(fs, dir) != [] ==> scanned == fs)
    && DrainOf(scanned, Paths(dir, PendingNames(scanned, dir)), inputs, fs', runs, states)
    && (!Contains(dir, ".json") ==>
          && |runs| == |PendingNames(scanned, dir)|
          && (forall r :: r in runs ==> r.marked)
          && (forall f :: f in PendingNames(scanned, dir) ==> f !in PendingNames(fs', dir)))
  }

  /**
   * Watch mode: scan; while nothing is pending, wait and scan again (between
   * scans other programs add the files of `arrivals`, one batch per wait);
   * once something is pending, drain that scan and stop.
   */
  method Watch(fs: Store, dir: string, inputs: Inputs, arrivals: seq<seq<(string, string)>>)
    returns (fs': Store, runs: seq<RunRecord>, ghost scanned: Store, ghost states: seq<Store>)
    requires fs.Valid()
    requires |dir| > 0 && !EndsWith(dir, "/")
    ensures fs'.Valid()
    ensures Watched(fs, dir, inputs, fs', runs, scanned, states)
  {
    var cur := fs;
    var configs := FindPendingConfigs(cur, dir);
    var polls := 0;
    while |configs| == 0 && polls < |arrivals|
      invariant 0 <= polls <= |arrivals|
      invariant cur.Valid() && configs == Paths(dir, PendingNames(cur, dir))
      invariant PendingNames(fs, dir) != [] ==> cur == fs
      decreases |arrivals| - polls
    {
      cur := PutAll(cur, arrivals[polls]);
      polls := polls + 1;
      configs := FindPendingConfigs(cur, dir);
    }
    scanned := cur;
    fs', runs, states := DrainConfigs(cur, configs, inputs);
    if !Contains(dir, ".json") {
      DrainCompletes(scanned, dir, inputs, fs', runs, states);
    }
  }

  /**
   * What the default mode leaves: nothing happens without a pending config;
   * otherwise exactly the first one is processed, and in a folder whose path
   * holds no `.json` it is marked and no longer pending.
   */
  ghost predicate RanOnce(fs: Store, dir: string, inputs: Inputs, fs': Store, runs: seq<RunRecord>)
    requires fs.Valid()
  {
    && (PendingNames(fs, dir) == [] ==> fs' == fs && runs == [])
    && (PendingNames(fs, dir) != [] ==>
          |runs| == 1 && (fs', runs[0]) == Process(fs, PathJoin(dir, PendingNames(fs, dir)[0]), inputs))
    && (PendingNames(fs, dir) != [] && |dir| > 0 && !EndsWith(dir, "/") && !Contains(dir, ".json") ==>
          |runs| == 1 && runs[0].marked && PendingNames(fs, dir)[0] !in PendingNames(fs', dir))
  }

  /** Default mode: only the first pending config, if any, is run and marked. */
  method Once(fs: Store, dir: string, inputs: Inputs) returns (fs': Store, runs: seq<RunRecord>)
    requires fs.Valid()
    ensures RanOnce(fs, dir, inputs, fs', runs)
  {
    var configs := FindPendingConfigs(fs, dir);
    if |configs| > 0 {
      var run;
      fs', run := ProcessConfig(fs, configs[0], inputs);
      runs := [run];
      if |dir| > 0 && !EndsWith(dir, "/") && !Contains(dir, ".json") {
        OnceMarks(fs, dir, inputs);
      }
    } else {
      fs' := fs;
      runs := [];
    }
  }

  /** In a folder whose path holds no `.json`, processing the first pending config takes it off the queue. */
  lemma OnceMarks(fs: Store, dir: string, inputs: Inputs)
    requires fs.Valid() && PendingNames(fs, dir) != []
    requires |dir| > 0 && !EndsWith(dir, "/") && !Contains(dir, ".json")
    ensures var f := PendingNames(fs, dir)[0];
            var r := Process(fs, PathJoin(dir, f), inputs);
            r.1.marked && f !in PendingNames(r.0, dir)
  {
    var f := PendingNames(fs, dir)[0];
    ListedMarkerWritable(fs, dir, f);
    var r := Process(fs, PathJoin(dir, f), inputs);
    MarkedAsWrittenNotPending(r.0, dir, f);
  }

  /** The command line: `--config <path>` and `--watch`. */
  datatype Args = Args(config: Option<string>, watch: bool)

  /**
   * `main`: a named config is run and never marked; otherwise watch mode or
   * the default single pass over the queue.
   */
  method Drive(fs: Store, args: Args, dir: string, inputs: Inputs, arrivals: seq<seq<(string, string)>>)
    returns (fs': Store, runs: seq<RunRecord>, ghost scanned: Store, ghost states: seq<Store>)
    requires fs.Valid()
    requires |dir| > 0 && !EndsWith(dir, "/")
    ensures Truthy(args.config) ==>
              var p := args.config.value;
              var r := ConfigRun(fs, inputs.load(p), inputs.raises(p));
              fs' == r.0 && runs == [RunRecord(p, r.1, r.2, false)]
    ensures !Truthy(args.config) && args.watch ==> Watched(fs, dir, inputs, fs', runs, scanned, states)
    ensures !Truthy(args.config) && !args.watch ==> RanOnce(fs, dir, inputs, fs', runs)
  {
    scanned, states := fs, [fs];
    if args.config.Some? && args.config.value != "" {
      var p := args.config.value;
      var events, outcome;
      fs', events, outcome := RunFromConfig(fs, inputs.load(p), inputs.raises(p));
      runs := [RunRecord(p, events, outcome, false)];
    } else if args.watch {
      fs', runs, scanned, states := Watch(fs, dir, inputs, arrivals);
    } else {
      fs', runs := Once(fs, dir, inputs);
    }
  }
}
