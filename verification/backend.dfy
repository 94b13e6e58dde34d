/**
 * The REST backend of the test suite: directory listings for the front end
 * (countries, model files, sample files) and the two endpoints that run the
 * evaluator on a shared test-suite folder, collecting outputs after each
 * call and reporting success or the error.
 */
module RestBackend {
  import opened Wrappers
  import opened Text
  import opened Storage
  import opened Pipeline
  import opened Collect
  import opened Stages

  /** The service's settings: the test-suite root, the batch-data folder, and whether the evaluator imported. */
  datatype Service = Service(root: string, batchPath: string, runnerAvailable: bool)

  // ---------------------------------------------------------------------------
  // Listings

  /** `safe_listdir`: the sorted entries of a directory, none when it is not one. */
  function SafeListDir(fs: Store, path: string): (r: seq<string>)
    requires fs.Valid()
    ensures Ascending(r)
    ensures forall n :: n in r <==> IsDir(fs, path) && n in ListDir(fs, path)
  {
    if IsDir(fs, path) then SortStrings(ListDir(fs, path)) else []
  }

  /** The names ending with `suffix`, in their order. */
  function Ending(names: seq<string>, suffix: string): (r: seq<string>)
    ensures forall n :: n in r <==> n in names && EndsWith(n, suffix)
    ensures Ascending(names) ==> Ascending(r)
  {
    var f := (n: string) => EndsWith(n, suffix);
    var r := Filter(names, f);
    assert Ascending(names) ==> Ascending(r) by {
      if Ascending(names) {
        FilterAscending(names, f);
      }
    }
    r
  }

  /** The segments a country folder may hold, in the order they are reported. */
  const KnownSegments: seq<string> := ["Consumer", "Business", "Tagger"]

  /** The segments of `segs` that are folders of `countryPath`, in order. */
  function SegmentsOf(fs: Store, countryPath: string, segs: seq<string>): (r: seq<string>)
    ensures forall s :: s in r <==> s in segs && IsDir(fs, PathJoin(countryPath, s))
    decreases |segs|
  {
    if |segs| == 0 then []
    else
      var last := segs[|segs| - 1];
      assert segs == segs[..|segs| - 1] + [last];
      SegmentsOf(fs, countryPath, segs[..|segs| - 1]) + (if IsDir(fs, PathJoin(countryPath, last)) then [last] else [])
  }

  /** The segments are those of the fixed list that exist, in the fixed list's order. */
  lemma {:induction false} SegmentsInFixedOrder(fs: Store, countryPath: string, segs: seq<string>)
    ensures SegmentsOf(fs, countryPath, segs) == Filter(segs, s => IsDir(fs, PathJoin(countryPath, s)))
    decreases |segs|
  {
    if |segs| > 0 {
      var init := segs[..|segs| - 1];
      var last := segs[|segs| - 1];
      assert segs == init + [last];
      SegmentsInFixedOrder(fs, countryPath, init);
      FilterAppend(init, last, s => IsDir(fs, PathJoin(countryPath, s)));
    }
  }

  datatype CountryInfo = CountryInfo(code: string, segments: seq<string>)

  /** The countries among `names` that are folders with at least one known segment, in order. */
  function CountriesOf(fs: Store, root: string, names: seq<string>): (r: seq<CountryInfo>)
    ensures forall ci :: ci in r ==>
              && ci.code in names
              && IsDir(fs, PathJoin(root, ci.code))
              && ci.segments == SegmentsOf(fs, PathJoin(root, ci.code), KnownSegments)
              && |ci.segments| > 0
    decreases |names|
  {
    if |names| == 0 then []
    else
      var c := names[|names| - 1];
      var cp := PathJoin(root, c);
      var segments := SegmentsOf(fs, cp, KnownSegments);
      CountriesOf(fs, root, names[..|names| - 1])
      + (if IsDir(fs, cp) && |segments| > 0 then [CountryInfo(c, segments)] else [])
  }

  /** Every folder among `names` holding a known segment is reported. */
  lemma {:induction false} CountriesComplete(fs: Store, root: string, names: seq<string>, c: string)
    requires c in names && IsDir(fs, PathJoin(root, c))
    requires |SegmentsOf(fs, PathJoin(root, c), KnownSegments)| > 0
    ensures CountryInfo(c, SegmentsOf(fs, PathJoin(root, c), KnownSegments)) in CountriesOf(fs, root, names)
    decreases |names|
  {
    var init := names[..|names| - 1];
    if names[|names| - 1] != c {
      var k :| 0 <= k < |names| && names[k] == c;
      assert init[k] == c;
      CountriesComplete(fs, root, init, c);
    }
  }

  /** The segments of one country folder, in the fixed order. */
  method CountrySegments(fs: Store, countryPath: string) returns (segments: seq<string>)
    ensures segments == SegmentsOf(fs, countryPath, KnownSegments)
  {
    segments := [];
    var i := 0;
    while i < |KnownSegments|
      invariant 0 <= i <= |KnownSegments|
      invariant segments == SegmentsOf(fs, countryPath, KnownSegments[..i])
    {
      var seg := KnownSegments[i];
      assert KnownSegments[..i + 1][..i] == KnownSegments[..i];
      if IsDir(fs, PathJoin(countryPath, seg)) {
        segments := segments + [seg];
      }
      i := i + 1;
    }
    assert KnownSegments[..i] == KnownSegments;
  }

  /** Taking one more name adds that country exactly when it is a folder with a known segment. */
  lemma CountriesOfStep(fs: Store, root: string, names: seq<string>, i: nat)
    requires i < |names|
    ensures var cp := PathJoin(root, names[i]);
            var segments := SegmentsOf(fs, cp, KnownSegments);
            CountriesOf(fs, root, names[..i + 1]) ==
              CountriesOf(fs, root, names[..i]) + (if IsDir(fs, cp) && |segments| > 0 then [CountryInfo(names[i], segments)] else [])
  {
    assert names[..i + 1][..i] == names[..i];
  }

  method CountriesFrom(fs: Store, root: string, names: seq<string>) returns (countries: seq<CountryInfo>)
    ensures countries == CountriesOf(fs, root, names)
  {
    countries := [];
    var i := 0;
    while i < |names|
      invariant 0 <= i <= |names|
      invariant countries == CountriesOf(fs, root, names[..i])
    {
      var c := names[i];
      CountriesOfStep(fs, root, names, i);
      var countryPath := PathJoin(root, c);
      if IsDir(fs, countryPath) {
        var segments := CountrySegments(fs, countryPath);
        if |segments| > 0 {
          countries := countries + [CountryInfo(c, segments)];
        }
      }
      i := i + 1;
    }
    assert names[..i] == names;
  }

  /** `get_countries`: the country folders of the root that hold a known segment. */
  method GetCountries(fs: Store, svc: Service) returns (countries: seq<CountryInfo>)
    requires fs.Valid()
    ensures countries == CountriesOf(fs, svc.root, SafeListDir(fs, svc.root))
  {
    var names := SafeListDir(fs, svc.root);
    countries := CountriesFrom(fs, svc.root, names);
  }

  function SegmentPath(svc: Service, country: string, segment: string): string {
    PathJoin(PathJoin(svc.root, country), segment)
  }

  function ModelPath(svc: Service, country: string, segment: string): string {
    PathJoin(SegmentPath(svc, country, segment), "model")
  }

  function ExpertRulesPath(svc: Service, country: string, segment: string): string {
    PathJoin(ModelPath(svc, country, segment), "expertrules")
  }

  /** Both `expertrules/old` and `expertrules/new` are folders. */
  predicate HasOldNew(fs: Store, svc: Service, country: string, segment: string) {
    var e := ExpertRulesPath(svc, country, segment);
    IsDir(fs, PathJoin(e, "old")) && IsDir(fs, PathJoin(e, "new"))
  }

  datatype ModelFiles = ModelFiles(prodModels: seq<string>, devModels: seq<string>,
                                   expertRulesOld: seq<string>, expertRulesNew: seq<string>, hasOldNewFolders: bool)

  /** Sorted archive names. */
  predicate Zips(names: seq<string>) {
    Ascending(names) && forall n :: n in names ==> EndsWith(n, ".zip")
  }

  /** `names` are, in ascending order, exactly the entries of folder `p` (none when it is missing) whose name ends with `suffix`. */
  ghost predicate ListsEnding(names: seq<string>, fs: Store, p: string, suffix: string)
    requires fs.Valid()
  {
    Ascending(names) && forall n :: n in names <==> EndsWith(n, suffix) && IsDir(fs, p) && n in ListDir(fs, p)
  }

  /**
   * `get_model_files`: 404 without the segment folder; otherwise the `.zip`
   * files of `prod`, `develop` and the expert rules, which come from the
   * `old` and `new` subfolders when both exist and from the shared flat
   * folder for both sides otherwise.
   */
  function GetModelFiles(fs: Store, svc: Service, country: string, segment: string): (r: Reply<ModelFiles>)
    requires fs.Valid()
    ensures r.HttpError? <==> !IsDir(fs, SegmentPath(svc, country, segment))
    ensures r.HttpError? ==> r.status == 404
    ensures r.Reply? ==> var m := r.value;
              && (m.hasOldNewFolders <==> HasOldNew(fs, svc, country, segment))
              && (!m.hasOldNewFolders ==> m.expertRulesOld == m.expertRulesNew)
              && Zips(m.prodModels) && Zips(m.devModels) && Zips(m.expertRulesOld) && Zips(m.expertRulesNew)
    ensures r.Reply? ==> var e := ExpertRulesPath(svc, country, segment);
              forall n :: n in r.value.expertRulesOld <==>
                EndsWith(n, ".zip") &&
                if r.value.hasOldNewFolders then n in SafeListDir(fs, PathJoin(e, "old")) else n in SafeListDir(fs, e)
    ensures r.Reply? ==> var mp := ModelPath(svc, country, segment);
              && ListsEnding(r.value.prodModels, fs, PathJoin(mp, "prod"), ".zip")
              && ListsEnding(r.value.devModels, fs, PathJoin(mp, "develop"), ".zip")
    ensures r.Reply? ==> var e := ExpertRulesPath(svc, country, segment);
              && ListsEnding(r.value.expertRulesOld, fs, if r.value.hasOldNewFolders then PathJoin(e, "old") else e, ".zip")
              && ListsEnding(r.value.expertRulesNew, fs, if r.value.hasOldNewFolders then PathJoin(e, "new") else e, ".zip")
  {
    var segmentPath := SegmentPath(svc, country, segment);
    var modelPath := ModelPath(svc, country, segment);
    if !IsDir(fs, segmentPath) then HttpError(404, "Segment path not found: " + segmentPath)
    else
      var e := ExpertRulesPath(svc, country, segment);
      var hasOldNew := HasOldNew(fs, svc, country, segment);
      var oldRules := if hasOldNew then Ending(SafeListDir(fs, PathJoin(e, "old")), ".zip") else Ending(SafeListDir(fs, e), ".zip");
      var newRules := if hasOldNew then Ending(SafeListDir(fs, PathJoin(e, "new")), ".zip") else oldRules;
      Reply(ModelFiles(Ending(SafeListDir(fs, PathJoin(modelPath, "prod")), ".zip"),
                       Ending(SafeListDir(fs, PathJoin(modelPath, "develop")), ".zip"),
                       oldRules, newRules, hasOldNew))
  }

  datatype TaggerFiles = TaggerFiles(models: seq<string>, companyLists: seq<string>, distributionFiles: seq<string>)

  /** `get_tagger_files`: the `.zip` models, the company lists and the `.tsv.gz` samples of a country's Tagger folder. */
  function GetTaggerFiles(fs: Store, svc: Service, country: string): (r: Reply<TaggerFiles>)
    requires fs.Valid()
    ensures r.HttpError? <==> !IsDir(fs, SegmentPath(svc, country, "Tagger"))
    ensures r.Reply? ==> && Zips(r.value.models)
                         && (forall n :: n in r.value.companyLists ==> EndsWith(n, "list_companies.xlsx"))
                         && (forall n :: n in r.value.distributionFiles ==> EndsWith(n, ".tsv.gz"))
    ensures r.Reply? ==> var t := TaggerPath(svc, country);
              && ListsEnding(r.value.models, fs, PathJoin(t, "model"), ".zip")
              && ListsEnding(r.value.companyLists, fs, PathJoin(t, "sample"), "list_companies.xlsx")
              && ListsEnding(r.value.distributionFiles, fs, PathJoin(t, "sample"), ".tsv.gz")
  {
    var segmentPath := SegmentPath(svc, country, "Tagger");
    var samplePath := PathJoin(segmentPath, "sample");
    if !IsDir(fs, segmentPath) then HttpError(404, "Tagger path not found")
    else Reply(TaggerFiles(Ending(SafeListDir(fs, PathJoin(segmentPath, "model")), ".zip"),
                           Ending(SafeListDir(fs, samplePath), "list_companies.xlsx"),
                           Ending(SafeListDir(fs, samplePath), ".tsv.gz")))
  }

  /** `get_sample_files`: the `.tsv.gz` samples, sorted; none when the folder is missing. */
  function GetSampleFiles(fs: Store, svc: Service, country: string, segment: string): (r: seq<string>)
    requires fs.Valid()
    ensures Ascending(r)
    ensures forall n :: n in r <==> EndsWith(n, ".tsv.gz") && n in SafeListDir(fs, PathJoin(SegmentPath(svc, country, segment), "sample"))
  {
    Ending(SafeListDir(fs, PathJoin(SegmentPath(svc, country, segment), "sample")), ".tsv.gz")
  }

  // ---------------------------------------------------------------------------
  // Running the tests

  datatype TestRequest = TestRequest(
    country: string, segment: string, version: string, oldModel: string, newModel: string,
    oldExpertRules: Option<string>, newExpertRules: Option<string>,
    accuracy: seq<string>, anomalies: seq<string>, precision: seq<string>, stability: seq<string>)

  datatype TestResult = TestResult(success: bool, message: string, outputFolder: Option<string>, reportPath: Option<string>)

  function OldModelPath(svc: Service, req: TestRequest): string {
    PathJoin(PathJoin(ModelPath(svc, req.country, req.segment), "prod"), req.oldModel)
  }

  function NewModelPath(svc: Service, req: TestRequest): string {
    PathJoin(PathJoin(ModelPath(svc, req.country, req.segment), "develop"), req.newModel)
  }

  /** `<segment path>/<version>_<yymmdd>`. */
  function OutputFolder(svc: Service, country: string, segment: string, version: string, today: string): string {
    PathJoin(SegmentPath(svc, country, segment), version + "_" + today)
  }

  /**
   * Why a run is refused before anything is written: the evaluator is not
   * available (503), the old model, then the new model is missing (400), or
   * no sample list is given (400). The model paths are those the request
   * resolves to.
   */
  function Rejection(fs: Store, svc: Service, req: TestRequest, oldPath: string, newPath: string): (r: Option<(nat, string)>)
    ensures r.None? <==> && svc.runnerAvailable && Exists(fs, oldPath) && Exists(fs, newPath)
                         && (|req.accuracy| > 0 || |req.anomalies| > 0 || |req.precision| > 0 || |req.stability| > 0)
    ensures r.Some? ==> (r.value.0 == 503 <==> !svc.runnerAvailable)
    ensures r.Some? ==> r.value.0 == 503 || r.value.0 == 400
  {
    if !svc.runnerAvailable then Some((503, "TestRunner not available"))
    else if !Exists(fs, oldPath) then Some((400, "Old model not found: " + req.oldModel))
    else if !Exists(fs, newPath) then Some((400, "New model not found: " + req.newModel))
    else if |req.accuracy| == 0 && |req.anomalies| == 0 && |req.precision| == 0 && |req.stability| == 0
    then Some((400, "At least one input file required"))
    else None
  }

  /** The evaluator is checked first: without it every request is refused with 503, whatever its models. */
  lemma UnavailableFirst(fs: Store, svc: Service, req: TestRequest, oldPath: string, newPath: string)
    requires !svc.runnerAvailable
    ensures Rejection(fs, svc, req, oldPath, newPath) == Some((503, "TestRunner not available"))
  {
  }

  /** The test-runner run of a request; the expert-rules layout is read before the output folder is made. */
  function RunSetup(fs: Store, svc: Service, req: TestRequest, today: string): RunnerSetup {
    var modelPath := ModelPath(svc, req.country, req.segment);
    var hasOldNew := HasOldNew(fs, svc, req.country, req.segment);
    RunnerSetup(OldModelPath(svc, req), NewModelPath(svc, req),
                OutputFolder(svc, req.country, req.segment, req.version, today),
                ExpertPath(modelPath, req.oldExpertRules, "old", hasOldNew),
                ExpertPath(modelPath, req.newExpertRules, "new", hasOldNew),
                PathJoin(SegmentPath(svc, req.country, req.segment), "sample"),
                req.accuracy, req.anomalies, req.precision, req.stability)
  }

  /** Collections name files after the segment exactly as requested, and look for batch files in the batch-data folder. */
  function RunEnv(svc: Service, req: TestRequest, today: string, mtime: string -> int, copyFails: set<string>): CollectEnv {
    CollectEnv(OutputFolder(svc, req.country, req.segment, req.version, today), req.segment, req.country,
               req.newModel, today, Some(svc.batchPath), mtime, copyFails)
  }

  /**
   * `run_tests`: refuse the request, or create the output folder and run the
   * test runner. The reply reports success with the final report's path
   * when that file exists, or the error message with the output folder when
   * a call raised; the exception never propagates. `reportPath` is where
   * the evaluator says its final report is and `error` the text of the
   * exception raised, if any.
   */
  method RunTests(fs: Store, svc: Service, req: TestRequest, today: string, ev: Evaluator,
                  mtime: string -> int, copyFails: set<string>, reportPath: string, error: string)
    returns (fs': Store, events: seq<Event>, reply: Reply<TestResult>)
    requires fs.Valid()
    requires '/' !in req.country && '/' !in req.segment && '/' !in today
    ensures var rejection := Rejection(fs, svc, req, OldModelPath(svc, req), NewModelPath(svc, req));
            rejection.Some? ==> fs' == fs && events == [] && reply == HttpError(rejection.value.0, rejection.value.1)
    ensures Rejection(fs, svc, req, OldModelPath(svc, req), NewModelPath(svc, req)).None? ==>
              var output := OutputFolder(svc, req.country, req.segment, req.version, today);
              var plan := RunnerPlan(RunSetup(fs, svc, req, today));
              && events == Executed(plan, ev.raiseAt)
              && fs' == Replay(MakeDirs(fs, output), events, ev.writes, RunEnv(svc, req, today, mtime, copyFails))
              && reply.Reply?
              && (reply.value.success <==> !RaisesWithin(plan, ev.raiseAt))
              && reply.value.outputFolder == Some(output)
              && (reply.value.reportPath.Some? <==> reply.value.success && Exists(fs', reportPath))
              && (reply.value.reportPath.Some? ==> reply.value.reportPath.value == reportPath)
              && (!reply.value.success ==> reply.value.message == "Error running tests: " + error)
  {
    var rejection := Rejection(fs, svc, req, OldModelPath(svc, req), NewModelPath(svc, req));
    if rejection.Some? {
      fs', events := fs, [];
      reply := HttpError(rejection.value.0, rejection.value.1);
      return;
    }
    var setup := RunSetup(fs, svc, req, today);
    var output := OutputFolder(svc, req.country, req.segment, req.version, today);
    fs' := MakeDirs(fs, output);
    var ok;
    fs', events, ok := RunTestRunner(fs', setup, ev, RunEnv(svc, req, today, mtime, copyFails));
    if ok {
      reply := Reply(TestResult(true, "Tests completed successfully!", Some(output),
                                if Exists(fs', reportPath) then Some(reportPath) else None));
    } else {
      reply := Reply(TestResult(false, "Error running tests: " + error, Some(output), None));
    }
  }

  datatype TaggerRequest = TaggerRequest(country: string, version: string, oldModel: string, newModel: string,
                                         companyList: string, distributionData: string)

  function TaggerPath(svc: Service, country: string): string {
    SegmentPath(svc, country, "Tagger")
  }

  /**
   * The tagger run: the models sit directly in `model`; construct the
   * runner, cross-validate, the distribution with the company list, save the
   * reports. Nothing is collected.
   */
  function TaggerPlan(svc: Service, req: TaggerRequest, today: string): (r: seq<Event>)
    ensures |r| == 4 && forall e :: e in r ==> e.Eval?
  {
    var samplePath := PathJoin(TaggerPath(svc, req.country), "sample");
    [Eval(NewTaggerRunner(TaggerModel(svc, req, req.oldModel), TaggerModel(svc, req, req.newModel),
                          OutputFolder(svc, req.country, "Tagger", req.version, today))),
     Eval(TaggerCrossValidation),
     Eval(TaggerDistribution(PathJoin(samplePath, req.distributionData), Some(PathJoin(samplePath, req.companyList)))),
     Eval(SaveTaggerReports)]
  }

  /** A tagger model sits directly in the Tagger folder's `model`. */
  function TaggerModel(svc: Service, req: TaggerRequest, name: string): string {
    PathJoin(PathJoin(TaggerPath(svc, req.country), "model"), name)
  }

  /** Why a tagger run is refused: no evaluator (503), or the old, then the new model is missing (400). */
  function TaggerRejection(fs: Store, svc: Service, req: TaggerRequest, oldPath: string, newPath: string): (r: Option<(nat, string)>)
    ensures r.None? <==> svc.runnerAvailable && Exists(fs, oldPath) && Exists(fs, newPath)
    ensures r.Some? ==> (r.value.0 == 503 <==> !svc.runnerAvailable)
  {
    if !svc.runnerAvailable then Some((503, "TestRunner not available"))
    else if !Exists(fs, oldPath) then Some((400, "Old model not found: " + req.oldModel))
    else if !Exists(fs, newPath) then Some((400, "New model not found: " + req.newModel))
    else None
  }

  function TaggerEnv(svc: Service, req: TaggerRequest, today: string): (env: CollectEnv)
    requires '/' !in req.country && '/' !in today
    ensures env.Flat()
  {
    CollectEnv(OutputFolder(svc, req.country, "Tagger", req.version, today), "Tagger", req.country,
               req.newModel, today, Some(svc.batchPath), _ => 0, {})
  }

  /** Four evaluator calls in a row, stopping at the first that raises. */
  method RunFourCalls(fs0: Store, plan: seq<Event>, ev: Evaluator, env: CollectEnv)
    returns (fs': Store, events: seq<Event>, ok: bool)
    requires fs0.Valid() && env.Flat()
    requires |plan| == 4 && forall e :: e in plan ==> e.Eval?
    ensures fs' == Replay(fs0, events, ev.writes, env)
    ensures events == Executed(plan, ev.raiseAt)
    ensures ok <==> !RaisesWithin(plan, ev.raiseAt)
  {
    assert plan[0] in plan && plan[1] in plan && plan[2] in plan && plan[3] in plan;
    fs', events, ok := PerformNext(fs0, [], plan, ev, env, fs0);
    if ok {
      fs', events, ok := PerformNext(fs', events, plan, ev, env, fs0);
    }
    if ok {
      fs', events, ok := PerformNext(fs', events, plan, ev, env, fs0);
    }
    if ok {
      fs', events, ok := PerformNext(fs', events, plan, ev, env, fs0);
      if ok {
        assert events == plan;
      }
    }
  }

  /** `run_tagger_tests`: as `run_tests`, for the tagger's four calls. */
  method RunTaggerTests(fs: Store, svc: Service, req: TaggerRequest, today: string, ev: Evaluator,
                        reportPath: string, error: string)
    returns (fs': Store, events: seq<Event>, reply: Reply<TestResult>)
    requires fs.Valid()
    requires '/' !in req.country && '/' !in today
    ensures var rejection := TaggerRejection(fs, svc, req, TaggerModel(svc, req, req.oldModel), TaggerModel(svc, req, req.newModel));
            rejection.Some? ==> fs' == fs && events == [] && reply == HttpError(rejection.value.0, rejection.value.1)
    ensures TaggerRejection(fs, svc, req, TaggerModel(svc, req, req.oldModel), TaggerModel(svc, req, req.newModel)).None? ==>
              var output := OutputFolder(svc, req.country, "Tagger", req.version, today);
              var plan := TaggerPlan(svc, req, today);
              && events == Executed(plan, ev.raiseAt)
              && fs' == Replay(MakeDirs(fs, output), events, ev.writes, TaggerEnv(svc, req, today))
              && reply.Reply?
              && (reply.value.success <==> !RaisesWithin(plan, ev.raiseAt))
              && reply.value.outputFolder == Some(output)
              && (reply.value.reportPath.Some? <==> reply.value.success && Exists(fs', reportPath))
              && (reply.value.reportPath.Some? ==> reply.value.reportPath.value == reportPath)
              && (!reply.value.success ==> reply.value.message == "Error running Tagger tests: " + error)
  {
    var rejection := TaggerRejection(fs, svc, req, TaggerModel(svc, req, req.oldModel), TaggerModel(svc, req, req.newModel));
    if rejection.Some? {
      fs', events := fs, [];
      reply := HttpError(rejection.value.0, rejection.value.1);
      return;
    }
    var output := OutputFolder(svc, req.country, "Tagger", req.version, today);
    var plan := TaggerPlan(svc, req, today);
    var env := TaggerEnv(svc, req, today);
    var fs0 := MakeDirs(fs, output);
    var ok;
    fs', events, ok := RunFourCalls(fs0, plan, ev, env);
    if ok {
      reply := Reply(TestResult(true, "Tagger tests completed successfully!", Some(output),
                                if Exists(fs', reportPath) then Some(reportPath) else None));
    } else {
      reply := Reply(TestResult(false, "Error running Tagger tests: " + error, Some(output), None));
    }
  }
}
