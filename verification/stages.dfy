/**
 * The validation stages shared by the runs that collect outputs after each
 * call (the Lambda handler and the REST backend): the call made for the i-th
 * sample of a stage, and what the file system looks like after a run's events.
 */
module Stages {
  import opened Wrappers
  import opened Text
  import opened Storage
  import opened Pipeline
  import opened Collect

  datatype Stage = AccuracyStage | AnomaliesStage | PrecisionStage | StabilityStage

  /** The report type a stage's outputs are collected as. */
  function StageReport(s: Stage): ReportType {
    match s
    case AccuracyStage => ACC
    case AnomaliesStage => ANOM
    case PrecisionStage => PREC
    case StabilityStage => STAB
  }

  /**
   * The evaluator call for the i-th sample `f` (1-based) of a stage: scores
   * tagged `A_i`, `ANOM` or `PREC`, or a distribution tagged `S_i`.
   */
  function StageCall(s: Stage, samplePath: string, i: nat, f: string): (c: Call)
    ensures s == StabilityStage <==> c.ValidationDistribution?
    ensures c.ValidationScores? || c.ValidationDistribution?
    ensures c.sample == PathJoin(samplePath, f)
  {
    match s
    case AccuracyStage => ValidationScores(PathJoin(samplePath, f), AccuracyTag(i))
    case AnomaliesStage => ValidationScores(PathJoin(samplePath, f), "ANOM")
    case PrecisionStage => ValidationScores(PathJoin(samplePath, f), "PREC")
    case StabilityStage => ValidationDistribution(PathJoin(samplePath, f), Some(StabilityTag(i)))
  }

  /** Two samples of the same stage at different positions never share a tag (`ANOM`/`PREC` apart). */
  lemma StageTagsDistinct(s: Stage, samplePath: string, i: nat, j: nat, f: string, g: string)
    requires s == AccuracyStage || s == StabilityStage
    ensures StageCall(s, samplePath, i, f) == StageCall(s, samplePath, j, g) ==> i == j
  {
    TagsDistinct(i, j);
  }

  /** A stage's block for one sample: the call, then the collection of its report type. */
  function CollectingBlock(s: Stage, samplePath: string): (nat, string) -> seq<Event> {
    (i: nat, f: string) => [Eval(StageCall(s, samplePath, i, f)), Collect(StageReport(s))]
  }

  /** The file system after `events`, starting from `fs`: an evaluator call writes its files, a collection copies. */
  function Replay(fs: Store, events: seq<Event>, writes: nat -> seq<(string, string)>, env: CollectEnv): (r: Store)
    requires fs.Valid() && env.Flat()
    ensures r.Valid()
    decreases |events|
  {
    if |events| == 0 then fs
    else
      var before := Replay(fs, events[..|events| - 1], writes, env);
      match events[|events| - 1]
      case Eval(_) => PutAll(before, writes(|events| - 1))
      case Collect(t) => Collected(before, env, t)
      case Progress(_) => before
  }

  lemma ReplayEval(fs: Store, events: seq<Event>, c: Call, writes: nat -> seq<(string, string)>, env: CollectEnv)
    requires fs.Valid() && env.Flat()
    ensures Replay(fs, events + [Eval(c)], writes, env) == PutAll(Replay(fs, events, writes, env), writes(|events|))
  {
    assert (events + [Eval(c)])[..|events|] == events;
  }

  lemma ReplayCollect(fs: Store, events: seq<Event>, t: ReportType, writes: nat -> seq<(string, string)>, env: CollectEnv)
    requires fs.Valid() && env.Flat()
    ensures Replay(fs, events + [Collect(t)], writes, env) == Collected(Replay(fs, events, writes, env), env, t)
  {
    assert (events + [Collect(t)])[..|events|] == events;
  }

  /** `events` is a prefix of `plan` that ends with the call that raises. */
  predicate StoppedIn(events: seq<Event>, plan: seq<Event>, raiseAt: Option<nat>) {
    events <= plan && RaisesWithin(events, raiseAt) && |events| == raiseAt.value + 1
  }

  /** A run stopped inside a prefix of the plan is what executing the whole plan gives. */
  lemma StoppedExecuted(events: seq<Event>, plan: seq<Event>, full: seq<Event>, raiseAt: Option<nat>)
    requires StoppedIn(events, plan, raiseAt) && plan <= full
    ensures Executed(full, raiseAt) == events
  {
    assert events <= full;
    assert full[raiseAt.value] == events[raiseAt.value];
    assert full[..raiseAt.value + 1] == events;
  }

  /**
   * One evaluator call at the next position of the run: its files are
   * written, and `ok` is false when it raises.
   */
  method Perform(fs: Store, events: seq<Event>, c: Call, ev: Evaluator, env: CollectEnv, ghost fs0: Store)
    returns (fs': Store, events': seq<Event>, ok: bool)
    requires fs0.Valid() && env.Flat()
    requires fs == Replay(fs0, events, ev.writes, env)
    requires !RaisesWithin(events, ev.raiseAt)
    ensures events' == events + [Eval(c)]
    ensures fs' == Replay(fs0, events', ev.writes, env)
    ensures ok <==> !RaisesWithin(events', ev.raiseAt)
    ensures !ok ==> StoppedIn(events', events', ev.raiseAt)
  {
    ReplayEval(fs0, events, c, ev.writes, env);
    fs' := PutAll(fs, ev.writes(|events|));
    events' := events + [Eval(c)];
    ok := ev.raiseAt != Some(|events|);
  }

  /** Appending the i-th block, event by event. */
  lemma BlockAppended(pre: seq<Event>, files: seq<string>, block: (nat, string) -> seq<Event>, i: nat, e1: Event, e2: Event)
    requires i < |files| && block(1 + i, files[i]) == [e1, e2]
    ensures pre + Blocks(files[..i], 1, block) + [e1] + [e2] == pre + Blocks(files[..i + 1], 1, block)
  {
    BlocksStep(files, 1, block, i);
  }

  /** The run so far plus the i-th block's first event is a prefix of the whole stage. */
  lemma BlockStarted(pre: seq<Event>, files: seq<string>, block: (nat, string) -> seq<Event>, i: nat, e1: Event)
    requires i < |files| && |block(1 + i, files[i])| > 0 && block(1 + i, files[i])[0] == e1
    ensures pre + Blocks(files[..i], 1, block) + [e1] <= pre + Blocks(files, 1, block)
  {
    BlocksSplit(files, 1, block, i);
    var b := block(1 + i, files[i]);
    var rest := Blocks(files[i + 1..], 1 + i + 1, block);
    assert pre + Blocks(files, 1, block) == (pre + Blocks(files[..i], 1, block)) + (b + rest);
    assert (b + rest)[0] == e1;
  }

  /**
   * A stage of a collecting run: for the i-th sample (from 1) the evaluator
   * call, then the collection of the stage's report type. Stops at the first
   * call that raises.
   */
  method RunStage(fs: Store, events: seq<Event>, files: seq<string>, s: Stage, samplePath: string,
                  ev: Evaluator, env: CollectEnv, ghost fs0: Store)
    returns (fs': Store, events': seq<Event>, ok: bool)
    requires fs0.Valid() && env.Flat()
    requires fs == Replay(fs0, events, ev.writes, env)
    requires !RaisesWithin(events, ev.raiseAt)
    ensures fs' == Replay(fs0, events', ev.writes, env)
    ensures ok ==> events' == events + Blocks(files, 1, CollectingBlock(s, samplePath))
    ensures ok ==> !RaisesWithin(events', ev.raiseAt)
    ensures !ok ==> StoppedIn(events', events + Blocks(files, 1, CollectingBlock(s, samplePath)), ev.raiseAt)
  {
    ghost var block := CollectingBlock(s, samplePath);
    fs' := fs;
    events' := events;
    ok := true;
    var i := 0;
    while i < |files| && ok
      invariant 0 <= i <= |files|
      invariant fs' == Replay(fs0, events', ev.writes, env)
      invariant ok ==> events' == events + Blocks(files[..i], 1, block)
      invariant ok ==> !RaisesWithin(events', ev.raiseAt)
      invariant !ok ==> StoppedIn(events', events + Blocks(files, 1, block), ev.raiseAt)
    {
      var c := StageCall(s, samplePath, i + 1, files[i]);
      var e2 := Collect(StageReport(s));
      assert block(1 + i, files[i]) == [Eval(c), e2];
      fs', events', ok := Perform(fs', events', c, ev, env, fs0);
      if ok {
        var copied;
        ReplayCollect(fs0, events', StageReport(s), ev.writes, env);
        fs', copied := CopyLatestOutputs(fs', env, StageReport(s));
        BlockAppended(events, files, block, i, Eval(c), e2);
        events' := events' + [e2];
      } else {
        BlockStarted(events, files, block, i, Eval(c));
        StoppedWithin(events', events', events + Blocks(files, 1, block), ev.raiseAt);
      }
      i := i + 1;
    }
    if ok {
      BlocksAll(files, 1, block);
    }
  }

  /** Appending the i-th block `b` extends the stage so far, and stays within the whole stage. */
  lemma BlockExtends(pre: seq<Event>, files: seq<string>, block: (nat, string) -> seq<Event>, i: nat, b: seq<Event>)
    requires i < |files| && block(1 + i, files[i]) == b
    ensures pre + Blocks(files[..i], 1, block) + b == pre + Blocks(files[..i + 1], 1, block)
    ensures pre + Blocks(files[..i + 1], 1, block) <= pre + Blocks(files, 1, block)
  {
    BlocksStep(files, 1, block, i);
    BlocksSplit(files, 1, block, i);
    JoinedPrefix(pre, Blocks(files[..i], 1, block), b, Blocks(files[..i + 1], 1, block),
                 Blocks(files[i + 1..], 1 + i + 1, block), Blocks(files, 1, block));
  }

  lemma JoinedPrefix(pre: seq<Event>, done: seq<Event>, b: seq<Event>, next: seq<Event>, rest: seq<Event>, whole: seq<Event>)
    requires next == done + b && whole == done + b + rest
    ensures pre + done + b == pre + next
    ensures pre + next <= pre + whole
  {
    assert pre + whole == (pre + next) + rest;
  }

  /** A prefix of the run so far stays a prefix whatever follows. */
  lemma PrefixGrows(a: seq<Event>, b: seq<Event>, c: seq<Event>)
    requires a <= b
    ensures a <= b + c
  {
    assert (b + c)[..|b|] == b;
  }

  /** A run stopped inside part of a plan stopped inside any longer part. */
  lemma StoppedWithin(events: seq<Event>, part: seq<Event>, longer: seq<Event>, raiseAt: Option<nat>)
    requires StoppedIn(events, part, raiseAt) && part <= longer
    ensures StoppedIn(events, longer, raiseAt)
  {
    assert longer[..|part|] == part;
    assert longer[..|events|] == events;
  }

  /** A run stopped inside a prefix of the plan raised within the plan and executed it. */
  lemma StoppedInPlan(events: seq<Event>, pre: seq<Event>, plan: seq<Event>, raiseAt: Option<nat>)
    requires StoppedIn(events, pre, raiseAt) && pre <= plan
    ensures events == Executed(plan, raiseAt)
    ensures RaisesWithin(plan, raiseAt)
  {
    StoppedExecuted(events, pre, plan, raiseAt);
  }

  /**
   * The next call of a plan of evaluator calls: the run so far is the plan's
   * prefix; afterwards it is one call longer, or it has stopped at this call.
   */
  method PerformNext(fs: Store, events: seq<Event>, plan: seq<Event>, ev: Evaluator, env: CollectEnv, ghost fs0: Store)
    returns (fs': Store, events': seq<Event>, ok: bool)
    requires fs0.Valid() && env.Flat()
    requires fs == Replay(fs0, events, ev.writes, env)
    requires |events| < |plan| && events == plan[..|events|] && plan[|events|].Eval?
    requires !RaisesWithin(events, ev.raiseAt)
    ensures fs' == Replay(fs0, events', ev.writes, env)
    ensures ok ==> events' == plan[..|events| + 1] && !RaisesWithin(events', ev.raiseAt)
    ensures !ok ==> events' == Executed(plan, ev.raiseAt) && RaisesWithin(plan, ev.raiseAt)
  {
    fs', events', ok := Perform(fs, events, plan[|events|].call, ev, env, fs0);
    assert events' == plan[..|events| + 1];
    if !ok {
      assert events' <= plan;
      StoppedInPlan(events', events', plan, ev.raiseAt);
    }
  }

  // ---------------------------------------------------------------------------
  // Expert rules

  /** Python truthiness of an optional string. */
  predicate Truthy(o: Option<string>) {
    o.Some? && o.value != ""
  }

  /**
   * An expert-rules path: none unless the name is given (non-empty); under
   * `expertrules/<side>` with the old/new layout, directly under
   * `expertrules` otherwise.
   */
  function ExpertPath(modelPath: string, rules: Option<string>, side: string, hasOldNew: bool): (r: Option<string>)
    ensures r.Some? <==> Truthy(rules)
    ensures r.Some? && hasOldNew ==> r.value == PathJoin(PathJoin(PathJoin(modelPath, "expertrules"), side), rules.value)
    ensures r.Some? && !hasOldNew ==> r.value == PathJoin(PathJoin(modelPath, "expertrules"), rules.value)
  {
    if Truthy(rules) then
      if hasOldNew then Some(PathJoin(PathJoin(PathJoin(modelPath, "expertrules"), side), rules.value))
      else Some(PathJoin(PathJoin(modelPath, "expertrules"), rules.value))
    else None
  }

  // ---------------------------------------------------------------------------
  // A test-runner run

  /** The paths a test runner is built from and the sample lists of its four stages. */
  datatype RunnerSetup = RunnerSetup(
    oldModel: string, newModel: string, output: string, oldExpert: Option<string>, newExpert: Option<string>,
    samplePath: string, accuracy: seq<string>, anomalies: seq<string>, precision: seq<string>, stability: seq<string>)
  {
    function StageFiles(s: Stage): seq<string> {
      match s
      case AccuracyStage => accuracy
      case AnomaliesStage => anomalies
      case PrecisionStage => precision
      case StabilityStage => stability
    }
  }

  /** The n-th stage of a test-runner run: accuracy, anomalies, precision, stability. */
  function StageAt(n: nat): Stage
    requires 1 <= n <= 4
  {
    if n == 1 then AccuracyStage
    else if n == 2 then AnomaliesStage
    else if n == 3 then PrecisionStage
    else StabilityStage
  }

  /**
   * A test-runner run through its first `n` stages: construct the runner
   * with both expert-rules paths, cross-validate, then each stage's samples.
   */
  function RunnerStages(setup: RunnerSetup, n: nat): seq<Event>
    requires n <= 4
  {
    if n == 0 then
      [Eval(NewRunner(setup.oldModel, setup.newModel, setup.output, setup.oldExpert, setup.newExpert)),
       Eval(CrossValidation(setup.oldExpert, setup.newExpert))]
    else
      RunnerStages(setup, n - 1) + Blocks(setup.StageFiles(StageAt(n)), 1, CollectingBlock(StageAt(n), setup.samplePath))
  }

  /** The whole test-runner run: the four stages, then the final reports. */
  function RunnerPlan(setup: RunnerSetup): seq<Event> {
    RunnerStages(setup, 4) + [Eval(SaveReports)]
  }

  lemma {:induction false} RunnerStagesPrefix(setup: RunnerSetup, n: nat)
    requires n <= 4
    ensures RunnerStages(setup, n) <= RunnerPlan(setup)
    decreases 4 - n
  {
    if n == 4 {
      PrefixGrows(RunnerStages(setup, 4), RunnerStages(setup, 4), [Eval(SaveReports)]);
    } else {
      RunnerStagesPrefix(setup, n + 1);
      var pre := RunnerStages(setup, n);
      var next := RunnerStages(setup, n + 1);
      assert next == pre + Blocks(setup.StageFiles(StageAt(n + 1)), 1, CollectingBlock(StageAt(n + 1), setup.samplePath));
      assert next[..|pre|] == pre;
    }
  }

  /**
   * A test-runner run has the two opening calls, two events per sample
   * (the call and the collection) and the final save.
   */
  lemma RunnerPlanLength(setup: RunnerSetup)
    ensures |RunnerPlan(setup)| == 3 + 2 * (|setup.accuracy| + |setup.anomalies| + |setup.precision| + |setup.stability|)
  {
    forall s: Stage
      ensures |Blocks(setup.StageFiles(s), 1, CollectingBlock(s, setup.samplePath))| == 2 * |setup.StageFiles(s)|
    {
      BlocksLength(setup.StageFiles(s), 1, CollectingBlock(s, setup.samplePath), 2);
    }
    assert |RunnerStages(setup, 1)| == 2 + 2 * |setup.accuracy|;
    assert |RunnerStages(setup, 2)| == 2 + 2 * (|setup.accuracy| + |setup.anomalies|);
    assert |RunnerStages(setup, 3)| == 2 + 2 * (|setup.accuracy| + |setup.anomalies| + |setup.precision|);
  }

  /** The n-th stage of a test-runner run, after the stages before it. */
  method RunRunnerStage(fs: Store, events: seq<Event>, setup: RunnerSetup, n: nat, ev: Evaluator, env: CollectEnv, ghost fs0: Store)
    returns (fs': Store, events': seq<Event>, ok: bool)
    requires 1 <= n <= 4
    requires fs0.Valid() && env.Flat()
    requires fs == Replay(fs0, events, ev.writes, env)
    requires events == RunnerStages(setup, n - 1) && !RaisesWithin(events, ev.raiseAt)
    ensures fs' == Replay(fs0, events', ev.writes, env)
    ensures ok ==> events' == RunnerStages(setup, n) && !RaisesWithin(events', ev.raiseAt)
    ensures !ok ==> events' == Executed(RunnerPlan(setup), ev.raiseAt) && RaisesWithin(RunnerPlan(setup), ev.raiseAt)
  {
    RunnerStagesPrefix(setup, n);
    var s := StageAt(n);
    fs', events', ok := RunStage(fs, events, setup.StageFiles(s), s, setup.samplePath, ev, env, fs0);
    if !ok {
      StoppedInPlan(events', RunnerStages(setup, n), RunnerPlan(setup), ev.raiseAt);
    }
  }

  /**
   * A test-runner run, from a freshly prepared output folder: construct the
   * runner, cross-validate, the four stages, save the reports; stops at the
   * first call that raises.
   */
  method RunTestRunner(fs0: Store, setup: RunnerSetup, ev: Evaluator, env: CollectEnv)
    returns (fs': Store, events: seq<Event>, ok: bool)
    requires fs0.Valid() && env.Flat()
    ensures fs' == Replay(fs0, events, ev.writes, env)
    ensures events == Executed(RunnerPlan(setup), ev.raiseAt)
    ensures ok <==> !RaisesWithin(RunnerPlan(setup), ev.raiseAt)
  {
    ghost var plan := RunnerPlan(setup);
    RunnerStagesPrefix(setup, 0);
    var cv := CrossValidation(setup.oldExpert, setup.newExpert);
    fs', events, ok := Perform(fs0, [], NewRunner(setup.oldModel, setup.newModel, setup.output, setup.oldExpert, setup.newExpert), ev, env, fs0);
    if !ok {
      PrefixGrows(events, events, [Eval(cv)]);
      StoppedInPlan(events, RunnerStages(setup, 0), plan, ev.raiseAt);
      return;
    }
    fs', events, ok := Perform(fs', events, cv, ev, env, fs0);
    if !ok {
      StoppedInPlan(events, RunnerStages(setup, 0), plan, ev.raiseAt);
      return;
    }
    assert events == RunnerStages(setup, 0);
    fs', events, ok := RunRunnerStage(fs', events, setup, 1, ev, env, fs0);
    if !ok { return; }
    fs', events, ok := RunRunnerStage(fs', events, setup, 2, ev, env, fs0);
    if !ok { return; }
    fs', events, ok := RunRunnerStage(fs', events, setup, 3, ev, env, fs0);
    if !ok { return; }
    fs', events, ok := RunRunnerStage(fs', events, setup, 4, ev, env, fs0);
    if !ok { return; }
    fs', events, ok := Perform(fs', events, SaveReports, ev, env, fs0);
    if !ok {
      StoppedInPlan(events, plan, plan, ev.raiseAt);
    }
  }
}
