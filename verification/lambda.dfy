/**
 * The serverless test runner: it takes the test configuration as its event,
 * clears its scratch area, downloads the segment's samples and models from
 * the bucket, runs the evaluator's stages (collecting the outputs after each
 * call), uploads the output folder and cleans up.
 */
module LambdaHandler {
  import opened Wrappers
  import opened Text
  import opened Storage
  import opened Pipeline
  import opened Collect
  import opened Stages

  /** The scratch area, removed before and after a run. */
  const LocalRoot := "/tmp/TEST_SUITE"

  /** The event payload; absent optional keys are `None`, and so are keys present with JSON `null`. */
  datatype Request = Request(
    country: string, segment: string, version: Option<string>, outputFolderName: Option<string>,
    oldModel: string, newModel: string, oldExpertRules: Option<string>, newExpertRules: Option<string>,
    hasOldNew: bool, accuracy: seq<string>, anomalies: seq<string>, precision: seq<string>,
    stability: seq<string>, distribution: Option<string>, dataRoot: Option<string>)

  // ---------------------------------------------------------------------------
  // Defaults and paths

  /** The segment with its first letter upper-cased and the rest lower-cased. */
  function Segment(req: Request): (r: string)
    ensures |r| == |req.segment| && ToLower(r) == ToLower(req.segment)
  {
    Capitalize(req.segment)
  }

  function Version(req: Request): string {
    req.version.GetOr("x.x.x")
  }

  function OutputFolderName(req: Request): string {
    req.outputFolderName.GetOr("output")
  }

  /** `<country>/<segment lower-cased>` unless the payload names a data root. */
  function DataRoot(req: Request): (r: string)
    ensures req.dataRoot.None? ==> r == req.country + "/" + ToLower(req.segment)
    ensures req.dataRoot.Some? ==> r == req.dataRoot.value
  {
    req.dataRoot.GetOr(req.country + "/" + ToLower(Segment(req)))
  }

  predicate IsTagger(req: Request) {
    ToLower(Segment(req)) == "tagger"
  }

  function S3Base(s3Prefix: string, req: Request): string {
    s3Prefix + DataRoot(req) + "/"
  }

  function LocalBase(req: Request): string {
    PathJoin(LocalRoot, DataRoot(req))
  }

  function SamplePath(req: Request): string {
    PathJoin(LocalBase(req), "sample")
  }

  function ModelPath(req: Request): string {
    PathJoin(LocalBase(req), "model")
  }

  function OutputFolder(req: Request): string {
    PathJoin(LocalBase(req), OutputFolderName(req))
  }

  function OldModelPath(req: Request): string {
    PathJoin(PathJoin(ModelPath(req), "prod"), req.oldModel)
  }

  function NewModelPath(req: Request): string {
    PathJoin(PathJoin(ModelPath(req), "develop"), req.newModel)
  }

  function OldExpertPath(req: Request): Option<string> {
    ExpertPath(ModelPath(req), req.oldExpertRules, "old", req.hasOldNew)
  }

  function NewExpertPath(req: Request): Option<string> {
    ExpertPath(ModelPath(req), req.newExpertRules, "new", req.hasOldNew)
  }

  /**
   * The old and new rules are resolved independently: each side's path
   * depends only on its own name, so a missing new name does not fall back
   * to the old one.
   */
  lemma ExpertPathsIndependent(req: Request, other: Option<string>)
    ensures OldExpertPath(req) == OldExpertPath(req.(newExpertRules := other))
    ensures NewExpertPath(req) == NewExpertPath(req.(oldExpertRules := other))
    ensures NewExpertPath(req).None? <==> !Truthy(req.newExpertRules)
  {
  }

  lemma CapitalizeFlat(s: string)
    requires '/' !in s
    ensures '/' !in Capitalize(s)
  {
    var r := Capitalize(s);
    forall i | 0 <= i < |r|
      ensures r[i] != '/'
    {
      assert ToLower(r)[i] == ToLower(s)[i];
      assert LowerChar(s[i]) != '/';
    }
  }

  // ---------------------------------------------------------------------------
  // Bucket transfers

  /** A listed key that is downloaded: something remains after the prefix and it is not a folder key. */
  predicate Downloadable(k: string, prefix: string) {
    StartsWith(k, prefix) && k[|prefix|..] != "" && !EndsWith(k[|prefix|..], "/")
  }

  /** Where a key is downloaded to: the local directory joined with the key minus the prefix. */
  function LocalPath(dir: string, prefix: string, k: string): string
    requires StartsWith(k, prefix)
  {
    PathJoin(dir, k[|prefix|..])
  }

  /** The local store after downloading `keys` in order (the parent directory is created first). */
  function Downloaded(fs: Store, bucket: Store, keys: seq<string>, prefix: string, dir: string): (r: Store)
    requires fs.Valid() && forall k :: k in keys ==> k in bucket.data
    ensures r.Valid()
    decreases |keys|
  {
    if |keys| == 0 then fs
    else
      var before := Downloaded(fs, bucket, keys[..|keys| - 1], prefix, dir);
      var k := keys[|keys| - 1];
      if Downloadable(k, prefix) then
        var lp := LocalPath(dir, prefix, k);
        Put(MakeDirs(before, Dirname(lp)), lp, bucket.data[k])
      else before
  }

  /** Keys that are different below the same prefix land on different local paths. */
  lemma LocalPathInjective(dir: string, prefix: string, k1: string, k2: string)
    requires StartsWith(k1, prefix) && StartsWith(k2, prefix) && k1 != k2
    requires !StartsWith(k1[|prefix|..], "/") && !StartsWith(k2[|prefix|..], "/")
    ensures LocalPath(dir, prefix, k1) != LocalPath(dir, prefix, k2)
  {
    assert k1 == prefix + k1[|prefix|..] && k2 == prefix + k2[|prefix|..];
    var a := PathJoin(dir, k1[|prefix|..]);
    var b := PathJoin(dir, k2[|prefix|..]);
    if |dir| == 0 || EndsWith(dir, "/") {
      assert a[|dir|..] == k1[|prefix|..] && b[|dir|..] == k2[|prefix|..];
    } else {
      assert a[|dir| + 1..] == k1[|prefix|..] && b[|dir| + 1..] == k2[|prefix|..];
    }
  }

  /** No remainder of these keys starts with a separator (no doubled `/` after the prefix). */
  predicate PlainRemainders(keys: seq<string>, prefix: string) {
    forall k :: k in keys ==> StartsWith(k, prefix) && !StartsWith(k[|prefix|..], "/")
  }

  /** Every downloadable key's content ends up at its local path. */
  lemma {:induction false} DownloadedContents(fs: Store, bucket: Store, keys: seq<string>, prefix: string, dir: string, k: string)
    requires fs.Valid() && forall x :: x in keys ==> x in bucket.data
    requires PlainRemainders(keys, prefix)
    requires k in keys && Downloadable(k, prefix)
    ensures var r := Downloaded(fs, bucket, keys, prefix, dir);
            LocalPath(dir, prefix, k) in r.data && r.data[LocalPath(dir, prefix, k)] == bucket.data[k]
    decreases |keys|
  {
    var init := keys[..|keys| - 1];
    var last := keys[|keys| - 1];
    assert keys == init + [last];
    if last != k {
      assert k in init;
      DownloadedContents(fs, bucket, init, prefix, dir, k);
      if Downloadable(last, prefix) {
        LocalPathInjective(dir, prefix, k, last);
      }
    }
  }

  /** Downloads the given keys one by one. */
  method DownloadKeys(fs: Store, bucket: Store, keys: seq<string>, prefix: string, dir: string) returns (fs': Store)
    requires fs.Valid() && forall k :: k in keys ==> k in bucket.data
    ensures fs' == Downloaded(fs, bucket, keys, prefix, dir)
  {
    fs' := fs;
    var i := 0;
    while i < |keys|
      invariant 0 <= i <= |keys|
      invariant fs' == Downloaded(fs, bucket, keys[..i], prefix, dir)
    {
      var key := keys[i];
      assert keys[..i + 1][..i] == keys[..i];
      if StartsWith(key, prefix) {
        var rel := key[|prefix|..];
        if rel != "" && !EndsWith(rel, "/") {
          var localPath := PathJoin(dir, rel);
          fs' := MakeDirs(fs', Dirname(localPath));
          fs' := Put(fs', localPath, bucket.data[key]);
        }
      }
      i := i + 1;
    }
    assert keys[..|keys|] == keys;
  }

  /** The local store after downloading every key listed under `prefix` into `dir`. */
  function DownloadedPrefix(fs: Store, bucket: Store, prefix: string, dir: string): (r: Store)
    requires fs.Valid() && bucket.Valid()
    ensures r.Valid()
  {
    Downloaded(fs, bucket, ListKeys(bucket, prefix), prefix, dir)
  }

  /** `s3_download_prefix`: every key listed under the prefix, in listing order. */
  method S3DownloadPrefix(fs: Store, bucket: Store, prefix: string, dir: string) returns (fs': Store)
    requires fs.Valid() && bucket.Valid()
    ensures fs' == DownloadedPrefix(fs, bucket, prefix, dir)
  {
    var keys := ListKeys(bucket, prefix);
    fs' := DownloadKeys(fs, bucket, keys, prefix, dir);
  }

  /** The key a local file is uploaded to: the prefix, then its path relative to `dir` with `\` turned into `/`. */
  function UploadKey(prefix: string, dir: string, p: string): string
    requires |p| > |dir|
  {
    prefix + ReplaceChar(p[|dir| + 1..], '\\', '/')
  }

  /** A file below `dir`, as the directory walk yields them. */
  predicate Below(p: string, dir: string) {
    StartsWith(p, dir + "/")
  }

  /** The bucket after uploading `files` in order. */
  function Uploaded(bucket: Store, fs: Store, files: seq<string>, dir: string, prefix: string): (r: Store)
    requires bucket.Valid() && forall f :: f in files ==> f in fs.data && Below(f, dir)
    ensures r.Valid()
    decreases |files|
  {
    if |files| == 0 then bucket
    else
      var f := files[|files| - 1];
      assert f in files && Below(f, dir);
      assert |f| > |dir|;
      Put(Uploaded(bucket, fs, files[..|files| - 1], dir, prefix), UploadKey(prefix, dir, f), fs.data[f])
  }

  /** No relative path of these files contains a backslash. */
  predicate SlashOnly(files: seq<string>, dir: string) {
    forall f :: f in files ==> Below(f, dir) && '\\' !in f[|dir| + 1..]
  }

  /** Every uploaded file's content ends up under its key. */
  lemma {:induction false} UploadedContents(bucket: Store, fs: Store, files: seq<string>, dir: string, prefix: string, f: string)
    requires bucket.Valid() && forall x :: x in files ==> x in fs.data && Below(x, dir)
    requires SlashOnly(files, dir) && f in files
    ensures var r := Uploaded(bucket, fs, files, dir, prefix);
            UploadKey(prefix, dir, f) in r.data && r.data[UploadKey(prefix, dir, f)] == fs.data[f]
    decreases |files|
  {
    var init := files[..|files| - 1];
    var last := files[|files| - 1];
    assert files == init + [last];
    assert last in files;
    if last != f {
      assert f in init;
      UploadedContents(bucket, fs, init, dir, prefix, f);
      var rf, rl := f[|dir| + 1..], last[|dir| + 1..];
      assert f == dir + "/" + rf && last == dir + "/" + rl;
      assert rf != rl;
      ReplaceCharAbsent(rf, '\\', '/');
      ReplaceCharAbsent(rl, '\\', '/');
      assert UploadKey(prefix, dir, f) == prefix + rf;
      assert UploadKey(prefix, dir, last) == prefix + rl;
      assert (prefix + rf)[|prefix|..] == rf && (prefix + rl)[|prefix|..] == rl;
    }
  }

  /** Uploads the given files one by one. */
  method UploadFiles(bucket: Store, fs: Store, files: seq<string>, dir: string, prefix: string) returns (bucket': Store)
    requires bucket.Valid() && forall f :: f in files ==> f in fs.data && Below(f, dir)
    ensures bucket' == Uploaded(bucket, fs, files, dir, prefix)
  {
    bucket' := bucket;
    var i := 0;
    while i < |files|
      invariant 0 <= i <= |files|
      invariant bucket' == Uploaded(bucket, fs, files[..i], dir, prefix)
    {
      var localPath := files[i];
      assert localPath in files;
      assert files[..i + 1][..i] == files[..i];
      var rel := localPath[|dir| + 1..];
      bucket' := Put(bucket', prefix + ReplaceChar(rel, '\\', '/'), fs.data[localPath]);
      i := i + 1;
    }
    assert files[..|files|] == files;
  }

  /** The bucket after uploading every file below `dir` to `prefix`. */
  function UploadedDir(bucket: Store, fs: Store, dir: string, prefix: string): (r: Store)
    requires bucket.Valid() && fs.Valid()
    ensures r.Valid()
  {
    Uploaded(bucket, fs, FilesUnder(fs, dir), dir, prefix)
  }

  /** `s3_upload_dir`: every file below `dir`, in walk order. */
  method S3UploadDir(bucket: Store, fs: Store, dir: string, prefix: string) returns (bucket': Store)
    requires bucket.Valid() && fs.Valid()
    ensures bucket' == UploadedDir(bucket, fs, dir, prefix)
  {
    var files := FilesUnder(fs, dir);
    bucket' := UploadFiles(bucket, fs, files, dir, prefix);
  }

  /** Uploading a downloaded file from the same directory to the same prefix gives back its key. */
  lemma UploadInvertsDownload(prefix: string, dir: string, k: string)
    requires Downloadable(k, prefix) && !StartsWith(k[|prefix|..], "/") && '\\' !in k[|prefix|..]
    requires |dir| > 0 && !EndsWith(dir, "/")
    ensures Below(LocalPath(dir, prefix, k), dir)
    ensures UploadKey(prefix, dir, LocalPath(dir, prefix, k)) == k
  {
    var rel := k[|prefix|..];
    var lp := LocalPath(dir, prefix, k);
    assert lp == dir + "/" + rel;
    assert lp[|dir| + 1..] == rel;
    ReplaceCharAbsent(rel, '\\', '/');
    assert k == prefix + rel;
  }

  /** A downloadable key's local path is a plain file path directly below `dir`, carrying the key's remainder. */
  lemma LocalPathShape(prefix: string, dir: string, k: string)
    requires Downloadable(k, prefix) && !StartsWith(k[|prefix|..], "/")
    requires |dir| > 0 && !EndsWith(dir, "/")
    ensures var lp := LocalPath(dir, prefix, k);
            Below(lp, dir) && !EndsWith(lp, "/") && lp[|dir| + 1..] == k[|prefix|..]
  {
    var rel := k[|prefix|..];
    var lp := LocalPath(dir, prefix, k);
    assert lp == dir + "/" + rel;
    assert lp[|lp| - 1..] == rel[|rel| - 1..];
    assert lp[|dir| + 1..] == rel;
  }

  /** A file that exists below `dir` is among those walked for upload. */
  lemma WalkedFile(st: Store, dir: string, p: string)
    requires st.Valid() && p in st.data && Below(p, dir) && !EndsWith(p, "/")
    ensures p in FilesUnder(st, dir)
    ensures forall x :: x in FilesUnder(st, dir) ==> x in st.data && Below(x, dir)
  {
  }

  /** Uploading `dir` puts a file found at a key's local path back under that key. */
  lemma UploadRestores(bucket: Store, local: Store, prefix: string, dir: string, k: string)
    requires bucket.Valid() && local.Valid()
    requires |dir| > 0 && !EndsWith(dir, "/")
    requires SlashOnly(FilesUnder(local, dir), dir)
    requires Downloadable(k, prefix) && !StartsWith(k[|prefix|..], "/")
    requires LocalPath(dir, prefix, k) in local.data
    ensures var back := UploadedDir(bucket, local, dir, prefix);
            k in back.data && back.data[k] == local.data[LocalPath(dir, prefix, k)]
  {
    var lp := LocalPath(dir, prefix, k);
    LocalPathShape(prefix, dir, k);
    WalkedFile(local, dir, lp);
    var files := FilesUnder(local, dir);
    assert '\\' !in k[|prefix|..] by {
      assert lp in files;
    }
    UploadInvertsDownload(prefix, dir, k);
    UploadedContents(bucket, local, files, dir, prefix, lp);
  }

  /**
   * Download then upload between the same prefix and directory restores
   * every downloaded object, provided no relative path has a backslash or a
   * leading separator.
   */
  lemma DownloadUploadRoundTrip(fs: Store, bucket: Store, prefix: string, dir: string, k: string)
    requires fs.Valid() && bucket.Valid()
    requires |dir| > 0 && !EndsWith(dir, "/")
    requires PlainRemainders(ListKeys(bucket, prefix), prefix)
    requires SlashOnly(FilesUnder(DownloadedPrefix(fs, bucket, prefix, dir), dir), dir)
    requires k in bucket.data && Downloadable(k, prefix)
    ensures var back := UploadedDir(bucket, DownloadedPrefix(fs, bucket, prefix, dir), dir, prefix);
            k in back.data && back.data[k] == bucket.data[k]
  {
    var keys := ListKeys(bucket, prefix);
    assert k in keys;
    DownloadedContents(fs, bucket, keys, prefix, dir, k);
    UploadRestores(bucket, DownloadedPrefix(fs, bucket, prefix, dir), prefix, dir, k);
  }

  // ---------------------------------------------------------------------------
  // The run

  /**
   * The tagger run: construct the tagger runner, then one distribution
   * (without a tag) of the distribution sample when one is named. Nothing
   * is collected and no final report is saved.
   */
  function TaggerPlan(req: Request): seq<Event> {
    [Eval(NewTaggerRunner(OldModelPath(req), NewModelPath(req), OutputFolder(req)))]
    + (if Truthy(req.distribution)
       then [Eval(ValidationDistribution(PathJoin(SamplePath(req), req.distribution.value), None))]
       else [])
  }

  /** The test-runner run of a payload: its paths and sample lists. */
  function Setup(req: Request): RunnerSetup {
    RunnerSetup(OldModelPath(req), NewModelPath(req), OutputFolder(req), OldExpertPath(req), NewExpertPath(req),
                SamplePath(req), req.accuracy, req.anomalies, req.precision, req.stability)
  }

  /** What the handler asks of the evaluator. */
  function LambdaPlan(req: Request): seq<Event> {
    if IsTagger(req) then TaggerPlan(req) else RunnerPlan(Setup(req))
  }

  /** The tagger run makes one or two calls and collects nothing. */
  lemma TaggerPlanShape(req: Request)
    ensures |TaggerPlan(req)| == if Truthy(req.distribution) then 2 else 1
    ensures forall e :: e in TaggerPlan(req) ==> e.Eval? && e.call != SaveReports
  {
  }

  /** A tagger run: construct the tagger runner, then the distribution sample if one is named. */
  method RunTagger(fs0: Store, req: Request, ev: Evaluator, env: CollectEnv)
    returns (fs': Store, events: seq<Event>, ok: bool)
    requires fs0.Valid() && env.Flat()
    ensures fs' == Replay(fs0, events, ev.writes, env)
    ensures events == Executed(TaggerPlan(req), ev.raiseAt)
    ensures ok <==> !RaisesWithin(TaggerPlan(req), ev.raiseAt)
  {
    ghost var plan := TaggerPlan(req);
    var first := Eval(NewTaggerRunner(OldModelPath(req), NewModelPath(req), OutputFolder(req)));
    PrefixGrows([first], [first], plan[1..]);
    assert plan == [first] + plan[1..];
    fs', events, ok := Perform(fs0, [], first.call, ev, env, fs0);
    if !ok {
      StoppedInPlan(events, events, plan, ev.raiseAt);
      return;
    }
    var accuracyFiles := if Truthy(req.distribution) then [req.distribution.value] else [];
    if |accuracyFiles| == 1 && accuracyFiles[0] != "" {
      fs', events, ok := Perform(fs', events, ValidationDistribution(PathJoin(SamplePath(req), accuracyFiles[0]), None), ev, env, fs0);
      if !ok {
        StoppedInPlan(events, plan, plan, ev.raiseAt);
        return;
      }
    }
    assert events == plan;
  }

  // ---------------------------------------------------------------------------
  // The handler

  /** The result payload of a completed run; a run whose evaluator raises returns none. */
  datatype Outcome =
    | Completed(status: string, country: string, segment: string, version: string, outputPrefix: string)
    | Raised

  /** The key prefix the output folder is uploaded to. */
  function OutputPrefix(s3Prefix: string, req: Request): string {
    S3Base(s3Prefix, req) + OutputFolderName(req) + "/"
  }

  /**
   * The local store when the evaluator is first called: the scratch area
   * removed if present, the samples and models downloaded, the output
   * folder created.
   */
  function Prepared(fs: Store, bucket: Store, req: Request, s3Prefix: string): (r: Store)
    requires fs.Valid() && bucket.Valid()
    ensures r.Valid() && IsDir(r, OutputFolder(req))
  {
    var base := S3Base(s3Prefix, req);
    var cleared := if Exists(fs, LocalRoot) then RemoveTree(fs, LocalRoot) else fs;
    var samples := DownloadedPrefix(cleared, bucket, base + "sample/", SamplePath(req));
    var models := DownloadedPrefix(samples, bucket, base + "model/", ModelPath(req));
    MakeDirs(models, OutputFolder(req))
  }

  /** What the collections after each call are parameterised by. */
  function Env(req: Request, today: string, batchDir: Option<string>, mtime: string -> int, copyFails: set<string>): CollectEnv {
    CollectEnv(OutputFolder(req), Segment(req), req.country, req.newModel, today, batchDir, mtime, copyFails)
  }

  /**
   * `handler`: prepare the scratch area, run the tagger or the test runner,
   * upload the output folder, clean up and report. The date, the batch
   * directory, file times and failing copies come from outside.
   */
  method Handler(fs: Store, bucket: Store, req: Request, bucketName: string, s3Prefix: string, today: string,
                 ev: Evaluator, batchDir: Option<string>, mtime: string -> int, copyFails: set<string>)
    returns (fs': Store, bucket': Store, events: seq<Event>, outcome: Outcome)
    requires fs.Valid() && bucket.Valid()
    requires '/' !in req.country && '/' !in req.segment && '/' !in today
    ensures events == Executed(LambdaPlan(req), ev.raiseAt)
    ensures outcome.Raised? <==> RaisesWithin(LambdaPlan(req), ev.raiseAt)
    ensures var env := Env(req, today, batchDir, mtime, copyFails);
            env.Flat() &&
            var run := Replay(Prepared(fs, bucket, req, s3Prefix), events, ev.writes, env);
            if outcome.Raised? then
              bucket' == bucket && fs' == run
            else
              && bucket' == UploadedDir(bucket, run, OutputFolder(req), OutputPrefix(s3Prefix, req))
              && fs' == RemoveTree(run, LocalRoot)
              && outcome == Completed("completed", req.country, Segment(req), Version(req),
                                      "s3://" + bucketName + "/" + OutputPrefix(s3Prefix, req))
  {
    CapitalizeFlat(req.segment);
    var env := Env(req, today, batchDir, mtime, copyFails);
    var segment := Segment(req);
    var base := S3Base(s3Prefix, req);

    fs' := fs;
    if Exists(fs', LocalRoot) {
      fs' := RemoveTree(fs', LocalRoot);
    }
    fs' := S3DownloadPrefix(fs', bucket, base + "sample/", SamplePath(req));
    fs' := S3DownloadPrefix(fs', bucket, base + "model/", ModelPath(req));
    fs' := MakeDirs(fs', OutputFolder(req));
    ghost var fs0 := fs';
    assert fs0 == Prepared(fs, bucket, req, s3Prefix);

    var ok;
    if ToLower(segment) == "tagger" {
      fs', events, ok := RunTagger(fs', req, ev, env);
    } else {
      fs', events, ok := RunTestRunner(fs', Setup(req), ev, env);
    }
    if !ok {
      bucket' := bucket;
      outcome := Raised;
      return;
    }
    var outputPrefix := base + OutputFolderName(req) + "/";
    bucket' := S3UploadDir(bucket, fs', OutputFolder(req), outputPrefix);
    fs' := RemoveTree(fs', LocalRoot);
    outcome := Completed("completed", req.country, segment, Version(req), "s3://" + bucketName + "/" + outputPrefix);
  }
}
