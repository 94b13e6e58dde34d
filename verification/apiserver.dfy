// The FastAPI test-suite server of docker/ce_python/api_server.py: the
// Windows-path fix wrapped around the evaluator's constructors, the
// case-insensitive segment and latest-date-folder lookups, the file listing
// offered to the UI, and the registry of background runs with its
// pending -> running -> completed/failed life cycle and progress.

module ApiServer {
  import opened Wrappers
  import opened Text
  import opened Storage
  import opened Pipeline
  import opened Stages

  // ---------------------------------------------------------------------------
  // The path fix around the evaluator's constructors

  /** A value passed to a patched I/O function: a string path, or anything else. */
  datatype PyValue = Str(s: string) | NonStr(id: nat)

  /** `_fix`: every backslash of a string becomes a slash; other values pass unchanged. */
  function Fix(p: PyValue): (r: PyValue)
    ensures p.NonStr? ==> r == p
    ensures p.Str? ==> r.Str? && |r.s| == |p.s| && '\\' !in r.s
    ensures p.Str? ==> forall i :: 0 <= i < |p.s| && p.s[i] != '\\' ==> r.s[i] == p.s[i]
  {
    match p
    case Str(s) => Str(ReplaceChar(s, '\\', '/'))
    case NonStr(_) => p
  }

  lemma FixIdempotent(p: PyValue)
    ensures Fix(Fix(p)) == Fix(p)
  {
    if p.Str? {
      ReplaceCharIdempotent(p.s, '\\', '/');
    }
  }

  /** `p.replace('/', '\\') if p else p`: the form the wrapped constructor parses. */
  function ToBackslash(p: Option<string>): (r: Option<string>)
    ensures r.None? <==> p.None?
    ensures r.Some? ==> |r.value| == |p.value| && '/' !in r.value
  {
    if p.Some? && p.value != "" then Some(ReplaceChar(p.value, '/', '\\')) else p
  }

  /** The fix undoes the conversion for any path written with slashes only. */
  lemma FixUndoesBackslash(p: string)
    requires '\\' !in p
    ensures Fix(Str(ToBackslash(Some(p)).value)) == Str(p)
  {
    var b := ToBackslash(Some(p)).value;
    var r := Fix(Str(b)).s;
    assert |r| == |p|;
    forall i | 0 <= i < |p|
      ensures r[i] == p[i]
    {
      if p[i] == '/' {
        assert b[i] == '\\';
      } else {
        assert b[i] == p[i];
      }
    }
  }

  /** How one of the rebound functions treats its path: the real one, or `_fix` in front of another binding. */
  datatype IoBinding = Original(name: string) | FixingWrapper(inner: IoBinding)

  /** The real function at the bottom of a chain of wrappers. */
  function Underlying(b: IoBinding): string {
    match b
    case Original(n) => n
    case FixingWrapper(inner) => Underlying(inner)
  }

  /**
   * The function that finally runs, and the path it receives, when `b` is
   * called with `p`: the real function, given `p` itself when nothing wraps
   * it and the fixed path behind any number of wrappers.
   */
  function Invoke(b: IoBinding, p: PyValue): (r: (string, PyValue))
    ensures r.0 == Underlying(b)
    ensures b.Original? ==> r.1 == p
    ensures b.FixingWrapper? ==> r.1 == Fix(p)
  {
    match b
    case Original(n) => (n, p)
    case FixingWrapper(inner) =>
      FixIdempotent(p);
      Invoke(inner, Fix(p))
  }

  /** Wrapping a binding that already fixes paths changes nothing: the fix is idempotent. */
  lemma {:induction false} RewrappingHarmless(b: IoBinding, p: PyValue)
    ensures Invoke(FixingWrapper(FixingWrapper(b)), p) == Invoke(FixingWrapper(b), p)
  {
    FixIdempotent(p);
  }

  /** The eight `os` and `builtins` functions the wrapper rebinds. */
  const PatchedNames: seq<string> :=
    ["os.chdir", "os.path.isdir", "os.path.exists", "os.path.isfile",
     "os.listdir", "os.makedirs", "os.path.join", "builtins.open"]

  /** The interpreter's current bindings of the patched functions. */
  class Interpreter {
    var io: map<string, IoBinding>

    constructor(io0: map<string, IoBinding>)
      ensures io == io0
    {
      io := io0;
    }
  }

  /** An evaluator object (`MetricTrainTest`, `MetricValidationTestScore`) under construction. */
  class Metric {
    var oldModelPath: Option<string>
    var newModelPath: Option<string>
    var outputFolder: Option<string>
    /** The three paths the library's own constructor was given. */
    var receivedPaths: seq<Option<string>>
    /** The bindings in force while the library's own constructor ran. */
    var ioDuringInit: map<string, IoBinding>

    constructor()
      ensures oldModelPath.None? && newModelPath.None? && outputFolder.None?
    {
      oldModelPath, newModelPath, outputFolder := None, None, None;
      receivedPaths := [];
      ioDuringInit := map[];
    }

    /**
     * The library's constructor: it keeps the paths it is given and may
     * raise (`raises`).
     */
    method OriginalInit(interp: Interpreter, oldModel: Option<string>, newModel: Option<string>,
                        output: Option<string>, raises: bool) returns (raised: bool)
      modifies this
      ensures raised == raises
      ensures receivedPaths == [oldModel, newModel, output]
      ensures ioDuringInit == interp.io
      ensures oldModelPath == oldModel && newModelPath == newModel && outputFolder == output
    {
      receivedPaths := [oldModel, newModel, output];
      ioDuringInit := interp.io;
      oldModelPath, newModelPath, outputFolder := oldModel, newModel, output;
      raised := raises;
    }

    /**
     * `_patched_init`: the library's constructor runs on backslash paths
     * while every patched function fixes its argument back; the original
     * bindings are restored whether it returns or raises, and on return the
     * three path attributes are the caller's paths again.
     */
    method PatchedInit(interp: Interpreter, oldModel: Option<string>, newModel: Option<string>,
                       output: Option<string>, raises: bool) returns (raised: bool)
      requires forall n :: n in PatchedNames ==> n in interp.io
      modifies this, interp
      ensures interp.io == old(interp.io)
      ensures raised == raises
      ensures receivedPaths == [ToBackslash(oldModel), ToBackslash(newModel), ToBackslash(output)]
      ensures forall n :: n in PatchedNames ==> n in ioDuringInit && ioDuringInit[n] == FixingWrapper(old(interp.io[n]))
      ensures !raised ==> oldModelPath == oldModel && newModelPath == newModel && outputFolder == output
    {
      var saved := interp.io;
      var patched := saved;
      for i := 0 to |PatchedNames|
        invariant patched.Keys == saved.Keys
        invariant forall j :: 0 <= j < i ==> patched[PatchedNames[j]] == FixingWrapper(saved[PatchedNames[j]])
        invariant forall n :: n in saved && n !in PatchedNames[..i] ==> patched[n] == saved[n]
      {
        var n := PatchedNames[i];
        patched := patched[n := FixingWrapper(saved[n])];
      }
      interp.io := patched;
      raised := OriginalInit(interp, ToBackslash(oldModel), ToBackslash(newModel), ToBackslash(output), raises);
      interp.io := saved;
      if !raised {
        oldModelPath, newModelPath, outputFolder := oldModel, newModel, output;
      }
    }
  }

  // ---------------------------------------------------------------------------
  // Folder lookups

  /** `find_segment_folder`: the first entry equal to `segment` ignoring case. */
  function FindSegmentFolder(names: seq<string>, segment: string): (r: Option<string>)
    ensures r.None? <==> forall d :: d in names ==> !EqualsIgnoreCase(d, segment)
    ensures r.Some? ==> exists i :: 0 <= i < |names| && names[i] == r.value && EqualsIgnoreCase(r.value, segment)
                                    && forall j :: 0 <= j < i ==> !EqualsIgnoreCase(names[j], segment)
  {
    if |names| == 0 then None
    else if EqualsIgnoreCase(names[0], segment) then Some(names[0])
    else
      var r := FindSegmentFolder(names[1..], segment);
      assert r.Some? ==> exists i :: 0 <= i < |names| && names[i] == r.value && EqualsIgnoreCase(r.value, segment)
                                    && forall j :: 0 <= j < i ==> !EqualsIgnoreCase(names[j], segment) by {
        if r.Some? {
          var i :| 0 <= i < |names[1..]| && names[1..][i] == r.value && EqualsIgnoreCase(r.value, segment)
                   && forall j :: 0 <= j < i ==> !EqualsIgnoreCase(names[1..][j], segment);
          assert names[i + 1] == r.value;
          forall j | 0 <= j < i + 1
            ensures !EqualsIgnoreCase(names[j], segment)
          {
            if j > 0 {
              assert names[j] == names[1..][j - 1];
            }
          }
        }
      }
      assert (forall d :: d in names ==> !EqualsIgnoreCase(d, segment)) ==> r.None? by {
        if forall d :: d in names ==> !EqualsIgnoreCase(d, segment) {
          assert forall d :: d in names[1..] ==> d in names;
        }
      }
      r
  }

  /** The lower-case folder names `list_segments` accepts, with the name each is shown as. */
  const SegmentNames: map<string, string> := map["consumer" := "Consumer", "business" := "Business", "tagger" := "Tagger"]

  /** The name a segment folder is shown as: the same name ignoring case, one of the three canonical ones. */
  function ShownAs(d: string): (r: string)
    requires ToLower(d) in SegmentNames
    ensures r in SegmentNames.Values
    ensures ToLower(r) == ToLower(d)
  {
    var l := ToLower(d);
    var r := SegmentNames[l];
    assert ToLower(r) == l by {
      if l == "consumer" {
        assert ToLower("Consumer") == "consumer";
      } else if l == "business" {
        assert ToLower("Business") == "business";
      } else {
        assert ToLower("Tagger") == "tagger";
      }
    }
    r
  }

  /** An entry of the country folder that is shown as a segment. */
  predicate IsSegmentFolder(fs: Store, countryPath: string, d: string) {
    IsDir(fs, PathJoin(countryPath, d)) && ToLower(d) in SegmentNames
  }

  /** The canonical names of the segment folders among `kept`, in order. */
  function ShownNames(kept: seq<string>): (r: seq<string>)
    requires forall d :: d in kept ==> ToLower(d) in SegmentNames
    ensures |r| == |kept| && forall i :: 0 <= i < |kept| ==> r[i] == ShownAs(kept[i])
    ensures forall d :: d in kept ==> ShownAs(d) in r
    ensures forall s :: s in r ==> s in SegmentNames.Values && exists d :: d in kept && ToLower(d) == ToLower(s)
  {
    if |kept| == 0 then []
    else [ShownAs(kept[0])] + ShownNames(kept[1..])
  }

  /** FastAPI's answer to an exception the endpoint does not catch. */
  const InternalServerError: string := "Internal Server Error"

  /** `os.listdir` of `p` raises `NotADirectoryError`: a regular file is stored there and nothing below it. */
  predicate NotAFolder(fs: Store, p: string) {
    IsFile(fs, p) && !IsDir(fs, p)
  }

  /** The entries of the country folder that are shown as segments, in listing order. */
  function SegmentFolders(fs: Store, cp: string): (r: seq<string>)
    requires fs.Valid()
    ensures forall d :: d in r <==> d in ListDir(fs, cp) && IsSegmentFolder(fs, cp, d)
    ensures forall d :: d in r ==> ToLower(d) in SegmentNames
  {
    Filter(ListDir(fs, cp), d => IsSegmentFolder(fs, cp, d))
  }

  /**
   * `list_segments`: 404 for a missing country; a country path that is a
   * file makes the unguarded `os.listdir` raise, which FastAPI answers with
   * 500; otherwise every folder whose lower-case name is consumer, business
   * or tagger, shown with its canonical capitalisation, in listing order.
   */
  function ListSegments(fs: Store, root: string, country: string): (r: Reply<seq<string>>)
    requires fs.Valid()
    ensures var cp := PathJoin(root, country);
            r.HttpError? <==> !Exists(fs, cp) || NotAFolder(fs, cp)
    ensures !Exists(fs, PathJoin(root, country)) ==> r == HttpError(404, "Country not found: " + country)
    ensures NotAFolder(fs, PathJoin(root, country)) ==> r == HttpError(500, InternalServerError)
    ensures r.Reply? ==> forall s :: s in r.value ==> s in SegmentNames.Values
    ensures r.Reply? ==> var kept := SegmentFolders(fs, PathJoin(root, country));
              |r.value| == |kept| && forall i :: 0 <= i < |kept| ==> r.value[i] == ShownAs(kept[i])
    ensures r.Reply? ==> var kept := SegmentFolders(fs, PathJoin(root, country));
              forall d :: d in kept ==> ShownAs(d) in r.value
    ensures r.Reply? ==> var kept := SegmentFolders(fs, PathJoin(root, country));
              forall s :: s in r.value ==> exists d :: d in kept && ToLower(d) == ToLower(s)
  {
    var cp := PathJoin(root, country);
    if !Exists(fs, cp) then HttpError(404, "Country not found: " + country)
    else if NotAFolder(fs, cp) then HttpError(500, InternalServerError)
    else Reply(ShownNames(SegmentFolders(fs, cp)))
  }

  /** A date folder: a folder of the segment that has a `model` entry. */
  predicate IsDateFolder(fs: Store, segmentPath: string, d: string) {
    IsDir(fs, PathJoin(segmentPath, d)) && Exists(fs, PathJoin(PathJoin(segmentPath, d), "model"))
  }

  /**
   * The latest date folder: the greatest name among the segment's entries
   * that are date folders, none if there is none (a segment path that is
   * not a folder lists nothing, which is where `find_latest_date_folder`'s
   * `except` lands).
   */
  function LatestDateFolder(fs: Store, segmentPath: string): (r: Option<string>)
    requires fs.Valid()
    ensures r.None? <==> forall d :: d in ListDir(fs, segmentPath) ==> !IsDateFolder(fs, segmentPath, d)
    ensures r.Some? ==> r.value in ListDir(fs, segmentPath) && IsDateFolder(fs, segmentPath, r.value)
    ensures r.Some? ==> forall d :: d in ListDir(fs, segmentPath) && IsDateFolder(fs, segmentPath, d) ==> LexLe(d, r.value)
  {
    Greatest(Filter(ListDir(fs, segmentPath), d => IsDateFolder(fs, segmentPath, d)))
  }

  /** `find_latest_date_folder`: collects the date folders in listing order, then takes the greatest. */
  method FindLatestDateFolder(fs: Store, segmentPath: string) returns (r: Option<string>)
    requires fs.Valid()
    ensures r == LatestDateFolder(fs, segmentPath)
  {
    var names := ListDir(fs, segmentPath);
    ghost var keep := d => IsDateFolder(fs, segmentPath, d);
    var dateFolders: seq<string> := [];
    for i := 0 to |names|
      invariant dateFolders == Filter(names[..i], keep)
    {
      FilterPrefixStep(names, i, keep);
      if IsDateFolder(fs, segmentPath, names[i]) {
        dateFolders := dateFolders + [names[i]];
      }
    }
    assert names[..|names|] == names;
    r := Greatest(dateFolders);
  }

  // ---------------------------------------------------------------------------
  // The file listing offered to the UI

  /** `sorted([f for f in os.listdir(p) if keep(f)])` for a folder `p`. */
  function SortedListing(fs: Store, p: string, keep: string -> bool): (r: seq<string>)
    requires fs.Valid()
    ensures Ascending(r)
    ensures forall n :: n in r <==> n in ListDir(fs, p) && keep(n)
  {
    SortStrings(Filter(ListDir(fs, p), keep))
  }

  /** A listing inside `list_files`' `try`: empty when `p` is missing or not a folder (`listdir` raised). */
  function ListingIfFolder(fs: Store, p: string, keep: string -> bool): (r: seq<string>)
    requires fs.Valid()
    ensures Ascending(r)
    ensures forall n :: n in r <==> IsDir(fs, p) && n in ListDir(fs, p) && keep(n)
  {
    if IsDir(fs, p) then SortedListing(fs, p, keep) else []
  }

  predicate IsZip(n: string) {
    EndsWith(n, ".zip")
  }

  predicate IsSample(n: string) {
    EndsWith(n, ".tsv.gz") || EndsWith(n, ".tsv")
  }

  predicate IsCompanyList(n: string) {
    EndsWith(n, ".xlsx") && Contains(ToLower(n), "compan")
  }

  /** Sorted names all accepted by `keep`. */
  predicate SortedOf(names: seq<string>, keep: string -> bool) {
    Ascending(names) && forall n :: n in names ==> keep(n)
  }

  /** `os.listdir` of an existing path does not raise: it is missing or a folder. */
  predicate Listable(fs: Store, p: string) {
    !Exists(fs, p) || IsDir(fs, p)
  }

  /** The `.zip` names of an `expertrules` subfolder, none when it is missing. */
  function SubfolderRules(fs: Store, p: string): (r: seq<string>)
    requires fs.Valid()
    ensures SortedOf(r, IsZip)
    ensures forall n :: n in r <==> Exists(fs, p) && n in ListDir(fs, p) && IsZip(n)
  {
    if Exists(fs, p) then SortedListing(fs, p, IsZip) else []
  }

  /**
   * The old and new expert-rules lists of `list_files`: the `.zip` names of
   * `expertrules/old` and `expertrules/new`; when both come out empty, the
   * flat `expertrules` listing for both. A subfolder that is a file makes
   * `listdir` raise, which ends the block with what was listed so far.
   */
  function ExpertRuleLists(fs: Store, e: string): (r: (seq<string>, seq<string>))
    requires fs.Valid()
    ensures SortedOf(r.0, IsZip) && SortedOf(r.1, IsZip)
    ensures !Exists(fs, e) ==> r == ([], [])
    ensures var o := PathJoin(e, "old"); var n := PathJoin(e, "new");
            Exists(fs, e) && Listable(fs, o) && Listable(fs, n) ==>
              if SubfolderRules(fs, o) == [] && SubfolderRules(fs, n) == [] then
                r.0 == r.1 == ListingIfFolder(fs, e, IsZip)
              else
                r == (SubfolderRules(fs, o), SubfolderRules(fs, n))
    ensures Exists(fs, e) && !Listable(fs, PathJoin(e, "old")) ==> r == ([], [])
    ensures Exists(fs, e) && Listable(fs, PathJoin(e, "old")) && !Listable(fs, PathJoin(e, "new")) ==>
              r == (SubfolderRules(fs, PathJoin(e, "old")), [])
  {
    var o := PathJoin(e, "old");
    var n := PathJoin(e, "new");
    if !Exists(fs, e) || !Listable(fs, o) then ([], [])
    else
      var oldRules := SubfolderRules(fs, o);
      if !Listable(fs, n) then (oldRules, [])
      else
        var newRules := SubfolderRules(fs, n);
        if oldRules == [] && newRules == [] then
          var flat := ListingIfFolder(fs, e, IsZip);
          (flat, flat)
        else (oldRules, newRules)
  }

  /** The body of `list_files`. */
  datatype FileListing = FileListing(
    sampleFiles: seq<string>, prodModels: seq<string>, devModels: seq<string>,
    expertRulesOld: seq<string>, expertRulesNew: seq<string>, taggerModels: seq<string>,
    companyLists: seq<string>, dateFolder: Option<string>, segmentFolder: Option<string>, error: Option<string>)

  /** A listing with every list empty. */
  function NoFiles(dateFolder: Option<string>, segmentFolder: Option<string>, error: Option<string>): FileListing {
    FileListing([], [], [], [], [], [], [], dateFolder, segmentFolder, error)
  }

  /**
   * `list_files`: the inputs of the latest date folder of a country's
   * segment (found ignoring case). A missing country, segment or date folder
   * gives empty lists and an error instead of a 404; a country path that is
   * a file makes `find_segment_folder`'s unguarded `os.listdir` raise, which
   * FastAPI answers with 500. Samples and company lists come from `sample`;
   * consumer and business segments list the `prod` and `develop` models and
   * the expert rules, Tagger its models.
   */
  function ListFiles(fs: Store, root: string, country: string, segment: string): (r: Reply<FileListing>)
    requires fs.Valid()
    ensures r.HttpError? <==> NotAFolder(fs, PathJoin(root, country))
    ensures r.HttpError? ==> r == HttpError(500, InternalServerError)
    ensures var cp := PathJoin(root, country);
            !Exists(fs, cp) ==> r == Reply(NoFiles(None, None, Some("Country folder not found: " + country)))
    ensures var cp := PathJoin(root, country);
            Exists(fs, cp) && !NotAFolder(fs, cp) && FindSegmentFolder(ListDir(fs, cp), segment).None? ==>
              r == Reply(NoFiles(None, None, Some("Segment folder not found: " + segment)))
    ensures r.Reply? && r.value.segmentFolder.Some? ==> var cp := PathJoin(root, country);
              r.value.segmentFolder == FindSegmentFolder(ListDir(fs, cp), segment)
              && r.value.dateFolder == LatestDateFolder(fs, PathJoin(cp, r.value.segmentFolder.value))
              && (r.value.dateFolder.None? ==> r.value == NoFiles(None, r.value.segmentFolder, Some("No date folder found with 'model' subdirectory")))
    ensures r.Reply? ==> (r.value.error.None? <==> r.value.dateFolder.Some?)
    ensures r.Reply? && r.value.dateFolder.Some? ==> r.value.segmentFolder.Some?
    ensures r.Reply? ==> SortedOf(r.value.sampleFiles, IsSample) && SortedOf(r.value.companyLists, IsCompanyList)
    ensures r.Reply? ==> SortedOf(r.value.prodModels, IsZip) && SortedOf(r.value.devModels, IsZip) && SortedOf(r.value.taggerModels, IsZip)
    ensures r.Reply? ==> SortedOf(r.value.expertRulesOld, IsZip) && SortedOf(r.value.expertRulesNew, IsZip)
    ensures r.Reply? && r.value.dateFolder.Some? ==>
              var l := r.value;
              var model := PathJoin(PathJoin(PathJoin(PathJoin(root, country), l.segmentFolder.value), l.dateFolder.value), "model");
              var seg := ToLower(segment);
              && (seg == "consumer" || seg == "business" ==>
                    (l.expertRulesOld, l.expertRulesNew) == ExpertRuleLists(fs, PathJoin(model, "expertrules")) && l.taggerModels == [])
              && (seg == "tagger" ==>
                    l.taggerModels == ListingIfFolder(fs, model, IsZip) && l.prodModels == l.devModels == l.expertRulesOld == l.expertRulesNew == [])
    ensures r.Reply? && r.value.dateFolder.Some? ==>
              var l := r.value;
              var work := PathJoin(PathJoin(PathJoin(root, country), l.segmentFolder.value), l.dateFolder.value);
              var model := PathJoin(work, "model");
              var seg := ToLower(segment);
              && l.sampleFiles == ListingIfFolder(fs, PathJoin(work, "sample"), IsSample)
              && l.companyLists == ListingIfFolder(fs, PathJoin(work, "sample"), IsCompanyList)
              && (seg == "consumer" || seg == "business" ==>
                    && l.prodModels == ListingIfFolder(fs, PathJoin(model, "prod"), IsZip)
                    && l.devModels == ListingIfFolder(fs, PathJoin(model, "develop"), IsZip))
              && (seg != "consumer" && seg != "business" && seg != "tagger" ==>
                    l.prodModels == l.devModels == l.expertRulesOld == l.expertRulesNew == l.taggerModels == [])
  {
    var cp := PathJoin(root, country);
    if !Exists(fs, cp) then Reply(NoFiles(None, None, Some("Country folder not found: " + country)))
    else if NotAFolder(fs, cp) then HttpError(500, InternalServerError)
    else
      Reply(match FindSegmentFolder(ListDir(fs, cp), segment)
      case None => NoFiles(None, None, Some("Segment folder not found: " + segment))
      case Some(actual) =>
        var sp := PathJoin(cp, actual);
        match LatestDateFolder(fs, sp)
        case None => NoFiles(None, Some(actual), Some("No date folder found with 'model' subdirectory"))
        case Some(d) =>
          var work := PathJoin(sp, d);
          var sample := PathJoin(work, "sample");
          var samples := ListingIfFolder(fs, sample, IsSample);
          var companies := ListingIfFolder(fs, sample, IsCompanyList);
          var model := PathJoin(work, "model");
          var seg := ToLower(segment);
          if seg == "consumer" || seg == "business" then
            var rules := ExpertRuleLists(fs, PathJoin(model, "expertrules"));
            FileListing(samples, ListingIfFolder(fs, PathJoin(model, "prod"), IsZip),
                        ListingIfFolder(fs, PathJoin(model, "develop"), IsZip),
                        rules.0, rules.1, [], companies, Some(d), Some(actual), None)
          else if seg == "tagger" then
            FileListing(samples, [], [], [], [], ListingIfFolder(fs, model, IsZip), companies, Some(d), Some(actual), None)
          else
            FileListing(samples, [], [], [], [], [], companies, Some(d), Some(actual), None))
  }

  // ---------------------------------------------------------------------------
  // Run requests and records

  /** The body of a consumer/business run request (the pydantic defaults are applied before it). */
  datatype CbConfig = CbConfig(
    country: string, segment: string, version: string, oldModel: string, newModel: string,
    vmBench: int, vmDev: int, azureBatch: bool, oldExpertRules: Option<string>, newExpertRules: Option<string>,
    accuracy: seq<string>, anomalies: seq<string>, precision: seq<string>, stability: seq<string>)

  /** The body of a Tagger run request. */
  datatype TaggerConfig = TaggerConfig(
    country: string, segment: string, version: string, oldModel: string, newModel: string,
    vmBench: int, vmDev: int, azureBatch: bool, companyList: string, distributionData: string)

  datatype RunConfig = ConsumerBusiness(cb: CbConfig) | TaggerRun(tagger: TaggerConfig)

  datatype Status = Pending | Running | Completed | Failed

  function StatusName(s: Status): string {
    match s
    case Pending => "pending"
    case Running => "running"
    case Completed => "completed"
    case Failed => "failed"
  }

  datatype RunResult = RunResult(outputFolder: string, reportPath: Option<string>)

  /** The entry of `test_runs` for one run. */
  datatype RunRecord = RunRecord(status: Status, progress: int, message: string, config: RunConfig,
                                 result: Option<RunResult>, error: Option<string>)

  /**
   * What every record satisfies: progress is a percentage, a queued run has
   * made none, a completed one is at 100 with a result, a failed one has
   * its traceback.
   */
  predicate WellFormed(r: RunRecord) {
    && 0 <= r.progress <= 100
    && (r.status == Pending ==> r.progress == 0 && r.result.None? && r.error.None?)
    && (r.status == Completed ==> r.progress == 100 && r.result.Some?)
    && (r.status == Failed ==> r.error.Some?)
  }

  /** A freshly submitted run. */
  function Queued(config: RunConfig, message: string): (r: RunRecord)
    ensures WellFormed(r) && r.status == Pending
  {
    RunRecord(Pending, 0, message, config, None, None)
  }

  /** What a raised exception reports: `str(e)` and `traceback.format_exc()`. */
  datatype Raised = Raised(text: string, traceback: string)

  /** The `except` branch of a run: failed, with the error and its traceback; progress stays where it was. */
  function FailedRecord(r: RunRecord, e: Raised): RunRecord {
    r.(status := Failed, message := "Error: " + e.text, error := Some(e.traceback))
  }

  /** `f"{country}_{segment}_{timestamp}"`. */
  function RunId(country: string, segment: string, stamp: string): string {
    country + "_" + segment + "_" + stamp
  }

  datatype RunResponse = RunResponse(runId: string, status: string, message: string)

  datatype StatusResponse = StatusResponse(runId: string, status: string, progress: Option<int>, message: Option<string>,
                                           result: Option<RunResult>, errorTraceback: Option<string>)

  datatype RunSummary = RunSummary(runId: string, status: string, progress: int, message: string)

  /** The server's settings: the test-suite data root, and whether each evaluator module (consumer/business, Tagger) imports. */
  datatype Service = Service(root: string, runnerImports: bool, taggerImports: bool)

  /** The evaluator's identifiers the final report is named after (`old_uid`, `new_uid`, `now`). */
  datatype ReportIds = ReportIds(oldUid: string, newUid: string, now: string)

  // ---------------------------------------------------------------------------
  // Progress

  /**
   * The progress shown while the k-th of `total` sample tests runs:
   * `10 + int((k / total) * 80)`, with the division exact (a zero total
   * never has a k-th test).
   */
  function Pct(k: nat, total: nat): int {
    if total == 0 then 10 else 10 + (80 * k) / total
  }

  lemma DivMonotone(a: nat, b: nat, d: nat)
    requires a <= b && 0 < d
    ensures a / d <= b / d
  {
    var qa, qb := a / d, b / d;
    assert a == qa * d + a % d && 0 <= a % d;
    assert b == qb * d + b % d && b % d < d;
    assert qa * d <= a <= b < (qb + 1) * d;
    MulLess(qa, qb + 1, d);
  }

  lemma MulLess(x: int, y: int, d: nat)
    requires 0 < d && x * d < y * d
    ensures x < y
  {
    assert (y - x) * d > 0;
  }

  /** The k-th of `total` tests shows between 10 and 90, exactly 90 for the last. */
  lemma PctBounds(k: nat, total: nat)
    requires k <= total
    ensures 10 <= Pct(k, total) <= 90
    ensures 0 < total && k == total ==> Pct(k, total) == 90
  {
    if total > 0 {
      DivMonotone(80 * k, 80 * total, total);
      MulDivCancel(80, total);
    }
  }

  lemma MulDivCancel(q: nat, d: nat)
    requires 0 < d
    ensures (q * d) / d == q
  {
    var a, r := (q * d) / d, (q * d) % d;
    assert q * d == a * d + r && 0 <= r < d;
    assert q * d < (a + 1) * d;
    MulLess(q, a + 1, d);
    assert a * d < (q + 1) * d;
    MulLess(a, q + 1, d);
  }

  lemma PctMonotone(j: nat, k: nat, total: nat)
    requires j <= k
    ensures Pct(j, total) <= Pct(k, total)
  {
    if total > 0 {
      DivMonotone(80 * j, 80 * k, total);
    }
  }

  /** The progress values a run shows, in order. */
  function Percents(events: seq<Event>): seq<int> {
    if |events| == 0 then []
    else
      var e := events[|events| - 1];
      Percents(events[..|events| - 1]) + (if e.Progress? then [e.percent] else [])
  }

  /** The progress a record shows after `events`, starting from `start`. */
  function LastProgress(events: seq<Event>, start: int): int {
    var p := Percents(events);
    if |p| == 0 then start else p[|p| - 1]
  }

  lemma {:induction false} PercentsConcat(a: seq<Event>, b: seq<Event>)
    ensures Percents(a + b) == Percents(a) + Percents(b)
    decreases |b|
  {
    if |b| == 0 {
      assert a + b == a;
    } else {
      var ab := a + b;
      assert ab[..|ab| - 1] == a + b[..|b| - 1];
      PercentsConcat(a, b[..|b| - 1]);
    }
  }

  lemma PercentsOne(e: Event)
    ensures Percents([e]) == if e.Progress? then [e.percent] else []
  {
    assert [e][..0] == [];
  }

  /** A progress update followed by a call shows that progress once. */
  lemma PercentsStep(p: int, c: Call)
    ensures Percents([Progress(p), Eval(c)]) == [p]
  {
    assert [Progress(p), Eval(c)] == [Progress(p)] + [Eval(c)];
    PercentsConcat([Progress(p)], [Eval(c)]);
    PercentsOne(Progress(p));
    PercentsOne(Eval(c));
  }

  lemma LastProgressAppend(events: seq<Event>, e: Event, start: int)
    ensures LastProgress(events + [e], start) == if e.Progress? then e.percent else LastProgress(events, start)
  {
    assert (events + [e])[..|events|] == events;
  }

  /** The progress shown so far is a prefix of what the whole plan shows. */
  lemma PercentsPrefix(a: seq<Event>, b: seq<Event>)
    requires a <= b
    ensures Percents(a) <= Percents(b)
  {
    assert b == a + b[|a|..];
    PercentsConcat(a, b[|a|..]);
  }

  predicate NonDecreasing(p: seq<int>) {
    forall i, j :: 0 <= i <= j < |p| ==> p[i] <= p[j]
  }

  // ---------------------------------------------------------------------------
  // The consumer/business run

  /** `os.path.join(DATA_ROOT, country, segment)`: the segment as given, not looked up ignoring case. */
  function CbSegmentPath(svc: Service, c: CbConfig): string {
    PathJoin(PathJoin(svc.root, c.country), c.segment)
  }

  /** A run's expert-rules path: the `old`/`new` subfolder entry when it exists, else the flat one; none without a name. */
  function RulesInRun(fs: Store, expertPath: string, side: string, rules: Option<string>): (r: Option<string>)
    ensures r.Some? <==> Truthy(rules)
    ensures r.Some? && Exists(fs, PathJoin(PathJoin(expertPath, side), rules.value)) ==>
              r.value == PathJoin(PathJoin(expertPath, side), rules.value)
    ensures r.Some? && !Exists(fs, PathJoin(PathJoin(expertPath, side), rules.value)) ==>
              r.value == PathJoin(expertPath, rules.value)
  {
    if Truthy(rules) then
      var sub := PathJoin(PathJoin(expertPath, side), rules.value);
      Some(if Exists(fs, sub) then sub else PathJoin(expertPath, rules.value))
    else None
  }

  /** The runner's paths and samples for a run in date folder `work`. */
  function CbSetup(fs: Store, work: string, c: CbConfig): RunnerSetup {
    var model := PathJoin(work, "model");
    var expert := PathJoin(model, "expertrules");
    RunnerSetup(PathJoin(PathJoin(model, "prod"), c.oldModel), PathJoin(PathJoin(model, "develop"), c.newModel),
                PathJoin(work, "output"),
                RulesInRun(fs, expert, "old", c.oldExpertRules), RulesInRun(fs, expert, "new", c.newExpertRules),
                PathJoin(work, "sample"), c.accuracy, c.anomalies, c.precision, c.stability)
  }

  /** `os.path.join(output_folder, old_uid, f"{new_uid}_final_report_{now}.xlsx")`. */
  function ReportPath(output: string, ids: ReportIds): string {
    PathJoin(PathJoin(output, ids.oldUid), ids.newUid + "_final_report_" + ids.now + ".xlsx")
  }

  /** The number of sample tests in the first n stages. */
  function Done(setup: RunnerSetup, n: nat): nat
    requires n <= 4
  {
    if n == 0 then 0 else Done(setup, n - 1) + |setup.StageFiles(StageAt(n))|
  }

  /** `total_tests`: all four sample lists. */
  function Total(setup: RunnerSetup): (r: nat)
    ensures r == |setup.accuracy| + |setup.anomalies| + |setup.precision| + |setup.stability|
  {
    assert Done(setup, 1) == |setup.accuracy|;
    assert Done(setup, 2) == Done(setup, 1) + |setup.anomalies|;
    assert Done(setup, 3) == Done(setup, 2) + |setup.precision|;
    Done(setup, 4)
  }

  /** The i-th test of a stage whose tests start after `offset`: show its progress, then run it. */
  function TestBlock(s: Stage, samplePath: string, offset: nat, total: nat): (nat, string) -> seq<Event> {
    (i: nat, f: string) => [Progress(Pct(offset + i, total)), Eval(StageCall(s, samplePath, i, f))]
  }

  /** A run through its first n stages: the runner, progress 10, cross-validation, then each stage's tests. */
  function TestStages(setup: RunnerSetup, n: nat): seq<Event>
    requires n <= 4
  {
    if n == 0 then
      [Eval(NewRunner(setup.oldModel, setup.newModel, setup.output, setup.oldExpert, setup.newExpert)),
       Progress(10), Eval(CrossValidation(setup.oldExpert, setup.newExpert))]
    else
      TestStages(setup, n - 1)
      + Blocks(setup.StageFiles(StageAt(n)), 1, TestBlock(StageAt(n), setup.samplePath, Done(setup, n - 1), Total(setup)))
  }

  /** The whole consumer/business run: the four stages, progress 95, the reports, progress 100. */
  function CbPlan(setup: RunnerSetup): seq<Event> {
    TestStages(setup, 4) + [Progress(95), Eval(SaveReports), Progress(100)]
  }

  lemma {:induction false} TestStagesPrefix(setup: RunnerSetup, n: nat)
    requires n <= 4
    ensures TestStages(setup, n) <= CbPlan(setup)
    decreases 4 - n
  {
    if n == 4 {
      PrefixGrows(TestStages(setup, 4), TestStages(setup, 4), [Progress(95), Eval(SaveReports), Progress(100)]);
    } else {
      TestStagesPrefix(setup, n + 1);
      PrefixGrows(TestStages(setup, n), TestStages(setup, n),
                  Blocks(setup.StageFiles(StageAt(n + 1)), 1, TestBlock(StageAt(n + 1), setup.samplePath, Done(setup, n), Total(setup))));
    }
  }

  /** The progress of `count` consecutive tests, the first being test `from` of `total`. */
  function PctRange(from: nat, count: nat, total: nat): (r: seq<int>)
    ensures |r| == count
    ensures forall i :: 0 <= i < count ==> r[i] == Pct(from + i, total)
    decreases count
  {
    if count == 0 then [] else [Pct(from, total)] + PctRange(from + 1, count - 1, total)
  }

  lemma {:induction false} PctRangeSplit(from: nat, m: nat, n: nat, total: nat)
    ensures PctRange(from, m + n, total) == PctRange(from, m, total) + PctRange(from + m, n, total)
  {
    var a := PctRange(from, m + n, total);
    var b := PctRange(from, m, total) + PctRange(from + m, n, total);
    assert |a| == |b|;
    forall i | 0 <= i < |a|
      ensures a[i] == b[i]
    {
      if i >= m {
        assert b[i] == PctRange(from + m, n, total)[i - m];
      }
    }
  }

  /** The progress of every test, the k-th (from 1) showing `10 + 80k/total`. */
  function Schedule(total: nat): (r: seq<int>)
    ensures |r| == total
    ensures forall k :: 0 <= k < total ==> r[k] == Pct(k + 1, total)
  {
    PctRange(1, total, total)
  }

  lemma {:induction false} BlockPercents(files: seq<string>, first: nat, s: Stage, samplePath: string, offset: nat, total: nat)
    ensures Percents(Blocks(files, first, TestBlock(s, samplePath, offset, total))) == PctRange(offset + first, |files|, total)
    decreases |files|
  {
    var block := TestBlock(s, samplePath, offset, total);
    if |files| > 0 {
      var b := block(first, files[0]);
      assert b == [Progress(Pct(offset + first, total)), Eval(StageCall(s, samplePath, first, files[0]))];
      PercentsStep(Pct(offset + first, total), StageCall(s, samplePath, first, files[0]));
      BlockPercents(files[1..], first + 1, s, samplePath, offset, total);
      PercentsConcat(b, Blocks(files[1..], first + 1, block));
    }
  }

  /** Before the first test only progress 10 is shown. */
  lemma HeadPercents(setup: RunnerSetup)
    ensures Percents(TestStages(setup, 0)) == [10]
  {
    var h := TestStages(setup, 0);
    var c0, c2 := h[0].call, h[2].call;
    assert h == [Eval(c0)] + [Progress(10), Eval(c2)];
    PercentsConcat([Eval(c0)], [Progress(10), Eval(c2)]);
    PercentsOne(Eval(c0));
    PercentsStep(10, c2);
  }

  /** Appending the next stage's tests continues the schedule. */
  lemma PercentsContinue(prev: seq<Event>, tests: seq<Event>, done: nat, count: nat, total: nat)
    requires Percents(prev) == [10] + PctRange(1, done, total)
    requires Percents(tests) == PctRange(done + 1, count, total)
    ensures Percents(prev + tests) == [10] + PctRange(1, done + count, total)
  {
    PercentsConcat(prev, tests);
    PctRangeSplit(1, done, count, total);
  }

  lemma {:induction false} StagesPercents(setup: RunnerSetup, n: nat)
    requires n <= 4
    ensures Percents(TestStages(setup, n)) == [10] + PctRange(1, Done(setup, n), Total(setup))
    decreases n
  {
    if n == 0 {
      HeadPercents(setup);
    } else {
      StagesPercents(setup, n - 1);
      var total := Total(setup);
      var files := setup.StageFiles(StageAt(n));
      var off := Done(setup, n - 1);
      var tests := Blocks(files, 1, TestBlock(StageAt(n), setup.samplePath, off, total));
      BlockPercents(files, 1, StageAt(n), setup.samplePath, off, total);
      PercentsContinue(TestStages(setup, n - 1), tests, off, |files|, total);
      assert TestStages(setup, n) == TestStages(setup, n - 1) + tests;
    }
  }

  /**
   * The progress a whole consumer/business run shows: 10, then
   * `10 + 80k/total` for the k-th test, then 95 and 100.
   */
  lemma ProgressSchedule(setup: RunnerSetup)
    ensures Percents(CbPlan(setup)) == [10] + Schedule(Total(setup)) + [95, 100]
  {
    StagesPercents(setup, 4);
    var tail: seq<Event> := [Progress(95), Eval(SaveReports), Progress(100)];
    PercentsConcat(TestStages(setup, 4), tail);
    assert tail == [Progress(95), Eval(SaveReports)] + [Progress(100)];
    PercentsConcat([Progress(95), Eval(SaveReports)], [Progress(100)]);
    PercentsStep(95, SaveReports);
    PercentsOne(Progress(100));
  }

  /** The test progress lies in 10..90 and never decreases. */
  lemma ScheduleBounded(total: nat)
    ensures NonDecreasing(Schedule(total))
    ensures forall x :: x in Schedule(total) ==> 10 <= x <= 90
  {
    var sch := Schedule(total);
    forall i, j | 0 <= i <= j < total
      ensures sch[i] <= sch[j]
    {
      PctMonotone(i + 1, j + 1, total);
    }
    forall x | x in sch
      ensures 10 <= x <= 90
    {
      var k :| 0 <= k < total && sch[k] == x;
      PctBounds(k + 1, total);
    }
  }

  /**
   * Whether or not a call raises, the progress a consumer/business run
   * shows never decreases and stays within 10..100.
   */
  lemma ProgressNeverDecreases(setup: RunnerSetup, raiseAt: Option<nat>)
    ensures NonDecreasing(Percents(Executed(CbPlan(setup), raiseAt)))
    ensures forall x :: x in Percents(Executed(CbPlan(setup), raiseAt)) ==> 10 <= x <= 100
  {
    var all := Percents(CbPlan(setup));
    ProgressSchedule(setup);
    ScheduleBounded(Total(setup));
    Bracketed(Schedule(Total(setup)), all);
    var ran := Executed(CbPlan(setup), raiseAt);
    PercentsPrefix(ran, CbPlan(setup));
    PrefixOrdered(Percents(ran), all);
  }

  /** The schedule between the first 10 and the closing 95 and 100 keeps its order and bounds. */
  lemma Bracketed(sch: seq<int>, all: seq<int>)
    requires NonDecreasing(sch) && forall x :: x in sch ==> 10 <= x <= 90
    requires all == [10] + sch + [95, 100]
    ensures NonDecreasing(all) && forall i :: 0 <= i < |all| ==> 10 <= all[i] <= 100
  {
    forall i | 0 <= i < |all|
      ensures 10 <= all[i] <= 100
    {
      if 1 <= i <= |sch| {
        assert all[i] == sch[i - 1];
        assert sch[i - 1] in sch;
      }
    }
    forall i, j | 0 <= i <= j < |all|
      ensures all[i] <= all[j]
    {
      if 1 <= i && j <= |sch| {
        assert all[i] == sch[i - 1] && all[j] == sch[j - 1];
      } else if 1 <= i <= |sch| {
        assert all[i] == sch[i - 1];
        assert sch[i - 1] in sch;
      } else if 1 <= j <= |sch| {
        assert all[j] == sch[j - 1];
        assert sch[j - 1] in sch;
      }
    }
  }

  /** A prefix of an ordered, bounded sequence is ordered and bounded. */
  lemma PrefixOrdered(p: seq<int>, all: seq<int>)
    requires p <= all
    requires NonDecreasing(all) && forall i :: 0 <= i < |all| ==> 10 <= all[i] <= 100
    ensures NonDecreasing(p) && forall x :: x in p ==> 10 <= x <= 100
  {
    assert forall i :: 0 <= i < |p| ==> p[i] == all[i];
  }

  // ---------------------------------------------------------------------------
  // The Tagger run

  /** The whole Tagger run in date folder `work`: progress 10, 30, 60, 90 before its four calls, then 100. */
  function TaggerPlan(work: string, c: TaggerConfig): seq<Event> {
    var model := PathJoin(work, "model");
    var sample := PathJoin(work, "sample");
    [Progress(10), Eval(NewTaggerRunner(PathJoin(model, c.oldModel), PathJoin(model, c.newModel), PathJoin(work, "output"))),
     Progress(30), Eval(TaggerCrossValidation),
     Progress(60), Eval(TaggerDistribution(PathJoin(sample, c.distributionData), Some(PathJoin(sample, c.companyList)))),
     Progress(90), Eval(SaveTaggerReports),
     Progress(100)]
  }

  /** `os.path.join(DATA_ROOT, country, "Tagger")`. */
  function TaggerSegmentPath(svc: Service, c: TaggerConfig): string {
    PathJoin(PathJoin(svc.root, c.country), "Tagger")
  }

  /** The Tagger plan, event by event. */
  lemma TaggerPlanAt(work: string, c: TaggerConfig)
    ensures var p := TaggerPlan(work, c); var model := PathJoin(work, "model"); var sample := PathJoin(work, "sample");
            && |p| == 9
            && p[0] == Progress(10)
            && p[1] == Eval(NewTaggerRunner(PathJoin(model, c.oldModel), PathJoin(model, c.newModel), PathJoin(work, "output")))
            && p[2] == Progress(30) && p[3] == Eval(TaggerCrossValidation)
            && p[4] == Progress(60)
            && p[5] == Eval(TaggerDistribution(PathJoin(sample, c.distributionData), Some(PathJoin(sample, c.companyList))))
            && p[6] == Progress(90) && p[7] == Eval(SaveTaggerReports)
            && p[8] == Progress(100)
  {
  }

  /** A Tagger run shows 10, 30, 60, 90 and 100, in that order. */
  lemma TaggerProgress(work: string, c: TaggerConfig)
    ensures Percents(TaggerPlan(work, c)) == [10, 30, 60, 90, 100]
  {
    var p := TaggerPlan(work, c);
    FourCallsPercents(p[1].call, p[3].call, p[5].call, p[7].call, 10, 30, 60, 90, 100);
  }

  /** Four calls, each after a progress update, then a last update: the five updates, in order. */
  lemma FourCallsPercents(c1: Call, c2: Call, c3: Call, c4: Call, p1: int, p2: int, p3: int, p4: int, p5: int)
    ensures Percents([Progress(p1), Eval(c1), Progress(p2), Eval(c2), Progress(p3), Eval(c3), Progress(p4), Eval(c4), Progress(p5)])
            == [p1, p2, p3, p4, p5]
  {
    var s1, s2, s3, s4 := [Progress(p1), Eval(c1)], [Progress(p2), Eval(c2)], [Progress(p3), Eval(c3)], [Progress(p4), Eval(c4)];
    assert [Progress(p1), Eval(c1), Progress(p2), Eval(c2), Progress(p3), Eval(c3), Progress(p4), Eval(c4), Progress(p5)]
           == s1 + (s2 + (s3 + (s4 + [Progress(p5)])));
    PercentsStep(p1, c1);
    PercentsStep(p2, c2);
    PercentsStep(p3, c3);
    PercentsStep(p4, c4);
    PercentsOne(Progress(p5));
    PercentsConcat(s4, [Progress(p5)]);
    PercentsConcat(s3, s4 + [Progress(p5)]);
    PercentsConcat(s2, s3 + (s4 + [Progress(p5)]));
    PercentsConcat(s1, s2 + (s3 + (s4 + [Progress(p5)])));
  }

  // ---------------------------------------------------------------------------
  // The registry of runs

  /** A record of a running run: its progress is the last one `events` showed, the rest as in `base`. */
  predicate InRun(r: RunRecord, base: RunRecord, events: seq<Event>) {
    r.status == Running && r.progress == LastProgress(events, base.progress)
    && r.config == base.config && r.result == base.result && r.error == base.error
  }

  /** The message shown while the i-th of `count` tests of a stage runs. */
  function TestMessage(s: Stage, i: nat, count: nat): string {
    match s
    case AccuracyStage => "Running accuracy test " + NatToString(i) + "/" + NatToString(count) + "..."
    case AnomaliesStage => "Running anomalies test..."
    case PrecisionStage => "Running precision test..."
    case StabilityStage => "Running stability test " + NatToString(i) + "/" + NatToString(count) + "..."
  }

  /** `test_runs`: the records by run id, and the ids in the order they were first submitted. */
  class RunRegistry {
    var ids: seq<string>
    var runs: map<string, RunRecord>

    ghost predicate Valid()
      reads this
    {
      Distinct(ids) && (forall id :: id in runs <==> id in ids) && (forall id :: id in runs ==> WellFormed(runs[id]))
    }

    constructor()
      ensures Valid() && ids == [] && runs == map[]
    {
      ids := [];
      runs := map[];
    }

    /** Stores a queued record; an id submitted again keeps its place. */
    method Enqueue(runId: string, config: RunConfig, message: string)
      requires Valid()
      modifies this
      ensures Valid()
      ensures runs == old(runs)[runId := Queued(config, message)]
      ensures ids == if runId in old(ids) then old(ids) else old(ids) + [runId]
    {
      if runId !in ids {
        ids := ids + [runId];
      }
      runs := runs[runId := Queued(config, message)];
    }

    /** `GET /api/testsuite/status/{run_id}`: 404 for an unknown run, otherwise its record. */
    function GetStatus(runId: string): (r: Reply<StatusResponse>)
      reads this
      ensures r.HttpError? <==> runId !in runs
      ensures r.HttpError? ==> r.status == 404 && r.detail == "Test run not found"
      ensures r.Reply? ==> r.value.runId == runId && r.value.status == StatusName(runs[runId].status)
                           && r.value.progress == Some(runs[runId].progress) && r.value.message == Some(runs[runId].message)
                           && r.value.result == runs[runId].result && r.value.errorTraceback == runs[runId].error
      ensures Valid() && r.Reply? ==> 0 <= r.value.progress.value <= 100
      ensures Valid() && r.Reply? && r.value.status == "completed" ==> r.value.progress == Some(100) && r.value.result.Some?
    {
      if runId !in runs then HttpError(404, "Test run not found")
      else
        var rec := runs[runId];
        Reply(StatusResponse(runId, StatusName(rec.status), Some(rec.progress), Some(rec.message), rec.result, rec.error))
    }

    /** `GET /api/testsuite/runs`: every run, in submission order. */
    function ListRuns(): (r: seq<RunSummary>)
      reads this
      requires Valid()
      ensures |r| == |ids|
      ensures forall i :: 0 <= i < |ids| ==>
                r[i] == RunSummary(ids[i], StatusName(runs[ids[i]].status), runs[ids[i]].progress, runs[ids[i]].message)
    {
      seq(|ids|, i requires 0 <= i < |ids| && Valid() reads this =>
        RunSummary(ids[i], StatusName(runs[ids[i]].status), runs[ids[i]].progress, runs[ids[i]].message))
    }

    /** `POST /api/testsuite/run/consumer-business`: queues the run; the background task is started separately. */
    method SubmitConsumerBusiness(config: CbConfig, stamp: string) returns (resp: RunResponse)
      requires Valid()
      modifies this
      ensures Valid()
      ensures resp == RunResponse(RunId(config.country, config.segment, stamp), "pending", "Test run started")
      ensures runs == old(runs)[resp.runId := Queued(ConsumerBusiness(config), "Test queued...")]
      ensures ids == if resp.runId in old(ids) then old(ids) else old(ids) + [resp.runId]
      ensures GetStatus(resp.runId) == Reply(StatusResponse(resp.runId, "pending", Some(0), Some("Test queued..."), None, None))
    {
      var runId := RunId(config.country, config.segment, stamp);
      Enqueue(runId, ConsumerBusiness(config), "Test queued...");
      resp := RunResponse(runId, "pending", "Test run started");
    }

    /** `POST /api/testsuite/run/tagger`. */
    method SubmitTagger(config: TaggerConfig, stamp: string) returns (resp: RunResponse)
      requires Valid()
      modifies this
      ensures Valid()
      ensures resp == RunResponse(RunId(config.country, "Tagger", stamp), "pending", "Tagger test run started")
      ensures runs == old(runs)[resp.runId := Queued(TaggerRun(config), "Tagger test queued...")]
      ensures ids == if resp.runId in old(ids) then old(ids) else old(ids) + [resp.runId]
      ensures GetStatus(resp.runId) == Reply(StatusResponse(resp.runId, "pending", Some(0), Some("Tagger test queued..."), None, None))
    {
      var runId := RunId(config.country, "Tagger", stamp);
      Enqueue(runId, TaggerRun(config), "Tagger test queued...");
      resp := RunResponse(runId, "pending", "Tagger test run started");
    }

    /** The first lines of a background task: the run is running. */
    method Begin(runId: string, message: string)
      requires Valid() && runId in runs
      modifies this
      ensures Valid() && ids == old(ids)
      ensures runs == old(runs)[runId := old(runs[runId]).(status := Running, message := message)]
    {
      runs := runs[runId := runs[runId].(status := Running, message := message)];
    }

    method SetMessage(runId: string, message: string)
      requires Valid() && runId in runs
      modifies this
      ensures Valid() && ids == old(ids)
      ensures runs == old(runs)[runId := old(runs[runId]).(message := message)]
    {
      runs := runs[runId := runs[runId].(message := message)];
    }

    /** A new message and progress for a running run. */
    method Report(runId: string, message: string, progress: int)
      requires Valid() && runId in runs && runs[runId].status == Running && 0 <= progress <= 100
      modifies this
      ensures Valid() && ids == old(ids)
      ensures runs == old(runs)[runId := old(runs[runId]).(message := message, progress := progress)]
    {
      runs := runs[runId := runs[runId].(message := message, progress := progress)];
    }

    /** The `except` branch of a background task. */
    method Fail(runId: string, e: Raised)
      requires Valid() && runId in runs
      modifies this
      ensures Valid() && ids == old(ids)
      ensures runs == old(runs)[runId := FailedRecord(old(runs[runId]), e)]
    {
      runs := runs[runId := FailedRecord(runs[runId], e)];
    }

    /** The last lines of a background task that got through. */
    method Complete(runId: string, message: string, result: RunResult)
      requires Valid() && runId in runs
      modifies this
      ensures Valid() && ids == old(ids)
      ensures runs == old(runs)[runId := old(runs[runId]).(status := Completed, progress := 100, message := message, result := Some(result))]
    {
      runs := runs[runId := runs[runId].(status := Completed, progress := 100, message := message, result := Some(result))];
    }

    /** Shows `progress`, then makes call `c` as the next event of the run; `ok` is false when it raises. */
    method Step(runId: string, events: seq<Event>, message: string, progress: int, c: Call, raiseAt: Option<nat>,
                ghost base: RunRecord) returns (events': seq<Event>, ok: bool)
      requires Valid() && runId in runs && InRun(runs[runId], base, events) && 0 <= progress <= 100
      requires !RaisesWithin(events, raiseAt)
      modifies this
      ensures Valid() && ids == old(ids) && runId in runs && runs == old(runs)[runId := runs[runId]]
      ensures InRun(runs[runId], base, events') && runs[runId].message == message
      ensures events' == events + [Progress(progress), Eval(c)]
      ensures ok <==> !RaisesWithin(events', raiseAt)
      ensures !ok <==> raiseAt == Some(|events| + 1)
    {
      Report(runId, message, progress);
      LastProgressAppend(events, Progress(progress), base.progress);
      LastProgressAppend(events + [Progress(progress)], Eval(c), base.progress);
      events' := events + [Progress(progress)] + [Eval(c)];
      ok := raiseAt != Some(|events| + 1);
    }

    /**
     * One of the four test loops: for each sample, count it, show its
     * message and progress, run it. Stops at the first call that raises.
     */
    method RunTestStage(runId: string, events: seq<Event>, s: Stage, samplePath: string, files: seq<string>,
                        offset: nat, total: nat, raiseAt: Option<nat>, ghost base: RunRecord)
      returns (events': seq<Event>, ok: bool)
      requires Valid() && runId in runs && InRun(runs[runId], base, events)
      requires offset + |files| <= total && !RaisesWithin(events, raiseAt)
      modifies this
      ensures Valid() && ids == old(ids) && runId in runs && runs == old(runs)[runId := runs[runId]]
      ensures InRun(runs[runId], base, events')
      ensures ok ==> events' == events + Blocks(files, 1, TestBlock(s, samplePath, offset, total)) && !RaisesWithin(events', raiseAt)
      ensures !ok ==> StoppedIn(events', events + Blocks(files, 1, TestBlock(s, samplePath, offset, total)), raiseAt)
    {
      ghost var block := TestBlock(s, samplePath, offset, total);
      ghost var before := runs;
      events' := events;
      ok := true;
      var current := offset;
      var i := 0;
      while i < |files| && ok
        invariant 0 <= i <= |files|
        invariant Valid() && ids == old(ids) && runId in runs && runs == before[runId := runs[runId]]
        invariant InRun(runs[runId], base, events')
        invariant ok ==> events' == events + Blocks(files[..i], 1, block) && !RaisesWithin(events', raiseAt)
        invariant ok ==> current == offset + i
        invariant !ok ==> StoppedIn(events', events + Blocks(files, 1, block), raiseAt)
      {
        current := current + 1;
        ghost var held := runs[runId];
        events', ok := RunTest(runId, events, s, samplePath, files, offset, total, i, current, events', raiseAt, base);
        Overwrite(before, runId, held, runs[runId]);
        i := i + 1;
      }
      if ok {
        BlocksAll(files, 1, block);
      }
    }

    /** The i-th test of a stage, the `current`-th of all: its message and progress, then its call. */
    method RunTest(runId: string, events: seq<Event>, s: Stage, samplePath: string, files: seq<string>,
                   offset: nat, total: nat, i: nat, current: nat, prev: seq<Event>, raiseAt: Option<nat>, ghost base: RunRecord)
      returns (next: seq<Event>, ok: bool)
      requires Valid() && runId in runs && InRun(runs[runId], base, prev)
      requires i < |files| && offset + |files| <= total && current == offset + i + 1
      requires prev == events + Blocks(files[..i], 1, TestBlock(s, samplePath, offset, total)) && !RaisesWithin(prev, raiseAt)
      modifies this
      ensures Valid() && ids == old(ids) && runId in runs && runs == old(runs)[runId := runs[runId]]
      ensures InRun(runs[runId], base, next)
      ensures ok ==> next == events + Blocks(files[..i + 1], 1, TestBlock(s, samplePath, offset, total)) && !RaisesWithin(next, raiseAt)
      ensures !ok ==> StoppedIn(next, events + Blocks(files, 1, TestBlock(s, samplePath, offset, total)), raiseAt)
    {
      PctBounds(current, total);
      var c := StageCall(s, samplePath, i + 1, files[i]);
      next, ok := Step(runId, prev, TestMessage(s, i + 1, |files|), Pct(current, total), c, raiseAt, base);
      TestAdvance(events, files, s, samplePath, offset, total, i, prev, next, raiseAt);
    }

    /**
     * `run_consumer_business_tests`: the latest date folder of the segment
     * (a missing one fails the run before anything else), the output folder
     * created, then the runner, cross-validation, the accuracy, anomalies,
     * precision and stability tests and the reports, with the progress
     * schedule; any exception fails the run with its message and traceback.
     */
    method RunConsumerBusinessTests(runId: string, config: CbConfig, svc: Service, fs: Store, raiseAt: Option<nat>,
                                    uids: ReportIds, failure: Raised) returns (fs': Store, events: seq<Event>)
      requires Valid() && runId in runs && fs.Valid()
      modifies this
      ensures Valid() && ids == old(ids) && runId in runs && runs == old(runs)[runId := runs[runId]]
      ensures var seg := CbSegmentPath(svc, config);
              !svc.runnerImports || LatestDateFolder(fs, seg).None? ==>
                fs' == fs && events == [] &&
                runs[runId] == FailedRecord(old(runs[runId]), if svc.runnerImports then Raised("No date folder found in " + seg, failure.traceback) else failure)
      ensures var seg := CbSegmentPath(svc, config); var date := LatestDateFolder(fs, seg);
              svc.runnerImports && date.Some? ==>
                var work := PathJoin(seg, date.value);
                var output := PathJoin(work, "output");
                var plan := CbPlan(CbSetup(MakeDirs(fs, output), work, config));
                && fs' == MakeDirs(fs, output)
                && events == Executed(plan, raiseAt)
                && runs[runId] == if RaisesWithin(plan, raiseAt)
                                  then FailedRecord(old(runs[runId]).(progress := LastProgress(events, old(runs[runId]).progress)), failure)
                                  else old(runs[runId]).(status := Completed, progress := 100, message := "Tests completed successfully!",
                                                          result := Some(RunResult(output, Some(ReportPath(output, uids)))))
    {
      ghost var base := runs[runId];
      ghost var before := runs;
      Begin(runId, "Initializing TestRunner...");
      ghost var begun := runs[runId];
      fs', events := fs, [];
      if !svc.runnerImports {
        Fail(runId, failure);
        Overwrite(before, runId, begun, runs[runId]);
        return;
      }
      var segmentPath := CbSegmentPath(svc, config);
      var date := FindLatestDateFolder(fs, segmentPath);
      if date.None? {
        Fail(runId, Raised("No date folder found in " + segmentPath, failure.traceback));
        Overwrite(before, runId, begun, runs[runId]);
        return;
      }
      var work := PathJoin(segmentPath, date.value);
      var output := PathJoin(work, "output");
      fs' := MakeDirs(fs, output);
      var setup := CbSetup(fs', work, config);
      ghost var plan := CbPlan(setup);
      var ok;
      events, ok := RunUntilReports(runId, setup, raiseAt, base);
      Overwrite(before, runId, begun, runs[runId]);
      ghost var ran := runs[runId];
      if ok {
        events := events + [Progress(100)];
        Complete(runId, "Tests completed successfully!", RunResult(output, Some(ReportPath(output, uids))));
      } else {
        Fail(runId, failure);
      }
      Overwrite(before, runId, ran, runs[runId]);
    }

    /**
     * `run_tagger_tests`: the Tagger runner of the latest date folder, its
     * cross-validation, validation distribution and reports, with progress
     * 10, 30, 60, 90 and 100; any exception fails the run.
     */
    method RunTaggerTests(runId: string, config: TaggerConfig, svc: Service, fs: Store, raiseAt: Option<nat>,
                          failure: Raised) returns (fs': Store, events: seq<Event>)
      requires Valid() && runId in runs && fs.Valid()
      modifies this
      ensures Valid() && ids == old(ids) && runId in runs && runs == old(runs)[runId := runs[runId]]
      ensures var seg := TaggerSegmentPath(svc, config);
              !svc.taggerImports || LatestDateFolder(fs, seg).None? ==>
                fs' == fs && events == [] &&
                runs[runId] == FailedRecord(old(runs[runId]), if svc.taggerImports then Raised("No date folder found in " + seg, failure.traceback) else failure)
      ensures var seg := TaggerSegmentPath(svc, config); var date := LatestDateFolder(fs, seg);
              svc.taggerImports && date.Some? ==>
                var work := PathJoin(seg, date.value);
                var output := PathJoin(work, "output");
                var plan := TaggerPlan(work, config);
                && fs' == MakeDirs(fs, output)
                && events == Executed(plan, raiseAt)
                && runs[runId] == if RaisesWithin(plan, raiseAt)
                                  then FailedRecord(old(runs[runId]).(progress := LastProgress(events, old(runs[runId]).progress)), failure)
                                  else old(runs[runId]).(status := Completed, progress := 100, message := "Tagger tests completed successfully!",
                                                          result := Some(RunResult(output, None)))
    {
      ghost var before := runs;
      Begin(runId, "Initializing Tagger TestRunner...");
      ghost var begun := runs[runId];
      fs', events := fs, [];
      if !svc.taggerImports {
        Fail(runId, failure);
        Overwrite(before, runId, begun, runs[runId]);
        return;
      }
      var segmentPath := TaggerSegmentPath(svc, config);
      var date := FindLatestDateFolder(fs, segmentPath);
      if date.None? {
        Fail(runId, Raised("No date folder found in " + segmentPath, failure.traceback));
        Overwrite(before, runId, begun, runs[runId]);
        return;
      }
      var work := PathJoin(segmentPath, date.value);
      var output := PathJoin(work, "output");
      fs' := MakeDirs(fs, output);
      var model := PathJoin(work, "model");
      var sample := PathJoin(work, "sample");
      var runner := NewTaggerRunner(PathJoin(model, config.oldModel), PathJoin(model, config.newModel), output);
      var distribution := TaggerDistribution(PathJoin(sample, config.distributionData), Some(PathJoin(sample, config.companyList)));
      var ok;
      ghost var plan := TaggerPlan(work, config);
      TaggerPlanAt(work, config);
      events, ok := TaggerSteps(runId, runner, TaggerCrossValidation, distribution, SaveTaggerReports, plan, raiseAt, begun);
      Overwrite(before, runId, begun, runs[runId]);
      ghost var ran := runs[runId];
      if ok {
        events := events + [Progress(100)];
        Complete(runId, "Tagger tests completed successfully!", RunResult(output, None));
      } else {
        Fail(runId, failure);
      }
      Overwrite(before, runId, ran, runs[runId]);
    }

    /**
     * The four calls of a Tagger run, each after its message and progress;
     * on success the whole plan but its final progress 100, otherwise the
     * executed prefix.
     */
    method TaggerSteps(runId: string, runner: Call, crossValidation: Call, distribution: Call, reports: Call,
                       ghost plan: seq<Event>, raiseAt: Option<nat>, ghost base: RunRecord)
      returns (events: seq<Event>, ok: bool)
      requires Valid() && runId in runs && InRun(runs[runId], base, [])
      requires |plan| == 9
      requires plan[0] == Progress(10) && plan[1] == Eval(runner) && plan[2] == Progress(30) && plan[3] == Eval(crossValidation)
      requires plan[4] == Progress(60) && plan[5] == Eval(distribution) && plan[6] == Progress(90) && plan[7] == Eval(reports)
      requires plan[8] == Progress(100)
      modifies this
      ensures Valid() && ids == old(ids) && runId in runs && runs == old(runs)[runId := runs[runId]]
      ensures InRun(runs[runId], base, events)
      ensures ok ==> events + [Progress(100)] == plan && !RaisesWithin(plan, raiseAt)
      ensures !ok ==> events == Executed(plan, raiseAt) && RaisesWithin(plan, raiseAt)
    {
      ghost var before := runs;
      events, ok := TwoStepsInPlan(runId, [], "Creating Tagger TestRunner...", 10, runner,
                                   "Running tagger crossvalidation...", 30, crossValidation, plan, raiseAt, base);
      if !ok {
        return;
      }
      ghost var last := runs[runId];
      events, ok := TwoStepsInPlan(runId, events, "Running tagger validation distribution...", 60, distribution,
                                   "Saving reports...", 90, reports, plan, raiseAt, base);
      Overwrite(before, runId, last, runs[runId]);
      if ok {
        ClosingProgress(events, plan, 100, raiseAt);
      }
    }

    /** Two steps that come next in `plan`, the second only when the first does not raise. */
    method TwoStepsInPlan(runId: string, events: seq<Event>, message1: string, progress1: int, c1: Call,
                          message2: string, progress2: int, c2: Call, ghost plan: seq<Event>,
                          raiseAt: Option<nat>, ghost base: RunRecord) returns (events': seq<Event>, ok: bool)
      requires Valid() && runId in runs && InRun(runs[runId], base, events) && 0 <= progress1 <= 100 && 0 <= progress2 <= 100
      requires !RaisesWithin(events, raiseAt) && |events| + 4 <= |plan| && events == plan[..|events|]
      requires plan[|events|] == Progress(progress1) && plan[|events| + 1] == Eval(c1)
      requires plan[|events| + 2] == Progress(progress2) && plan[|events| + 3] == Eval(c2)
      modifies this
      ensures Valid() && ids == old(ids) && runId in runs && runs == old(runs)[runId := runs[runId]]
      ensures InRun(runs[runId], base, events')
      ensures ok ==> events' == plan[..|events| + 4] && !RaisesWithin(events', raiseAt)
      ensures !ok ==> events' == Executed(plan, raiseAt) && RaisesWithin(plan, raiseAt)
    {
      ghost var before := runs;
      events', ok := StepInPlan(runId, events, message1, progress1, c1, plan, raiseAt, base);
      if !ok {
        return;
      }
      ghost var last := runs[runId];
      events', ok := StepInPlan(runId, events', message2, progress2, c2, plan, raiseAt, base);
      Overwrite(before, runId, last, runs[runId]);
    }

    /** A step whose progress and call come next in `plan`: a raise there ends the plan's run. */
    method StepInPlan(runId: string, events: seq<Event>, message: string, progress: int, c: Call, ghost plan: seq<Event>,
                      raiseAt: Option<nat>, ghost base: RunRecord) returns (events': seq<Event>, ok: bool)
      requires Valid() && runId in runs && InRun(runs[runId], base, events) && 0 <= progress <= 100
      requires !RaisesWithin(events, raiseAt) && |events| + 2 <= |plan| && events == plan[..|events|]
      requires plan[|events|] == Progress(progress) && plan[|events| + 1] == Eval(c)
      modifies this
      ensures Valid() && ids == old(ids) && runId in runs && runs == old(runs)[runId := runs[runId]]
      ensures InRun(runs[runId], base, events')
      ensures events' == plan[..|events| + 2]
      ensures ok <==> !RaisesWithin(events', raiseAt)
      ensures !ok ==> events' == Executed(plan, raiseAt) && RaisesWithin(plan, raiseAt)
    {
      events', ok := Step(runId, events, message, progress, c, raiseAt, base);
      assert events' == plan[..|events| + 2];
      if !ok {
        StoppedInPlan(events', events', plan, raiseAt);
      }
    }

    /** The runner, progress 10 and cross-validation. */
    method StartRunner(runId: string, setup: RunnerSetup, raiseAt: Option<nat>, ghost base: RunRecord)
      returns (events: seq<Event>, ok: bool)
      requires Valid() && runId in runs && runs[runId].status == Running
      requires runs[runId] == base.(status := Running, message := runs[runId].message)
      modifies this
      ensures Valid() && ids == old(ids) && runId in runs && runs == old(runs)[runId := runs[runId]]
      ensures InRun(runs[runId], base, events)
      ensures ok ==> events == TestStages(setup, 0) && !RaisesWithin(events, raiseAt)
      ensures !ok ==> StoppedIn(events, TestStages(setup, 0), raiseAt)
    {
      SetMessage(runId, "Creating TestRunner instance...");
      var runner := NewRunner(setup.oldModel, setup.newModel, setup.output, setup.oldExpert, setup.newExpert);
      events := [Eval(runner)];
      assert Percents(events) == [] by {
        PercentsOne(events[0]);
      }
      if raiseAt == Some(0) {
        ok := false;
        FirstCallRaises(Eval(runner), [Progress(10), Eval(CrossValidation(setup.oldExpert, setup.newExpert))], TestStages(setup, 0), raiseAt);
        return;
      }
      events, ok := Step(runId, events, "Running crossvalidation...", 10, CrossValidation(setup.oldExpert, setup.newExpert), raiseAt, base);
    }

    /** The accuracy, anomalies, precision and stability tests, in that order. */
    method RunStages(runId: string, setup: RunnerSetup, raiseAt: Option<nat>, events0: seq<Event>, ghost base: RunRecord)
      returns (events: seq<Event>, ok: bool)
      requires Valid() && runId in runs && InRun(runs[runId], base, events0)
      requires events0 == TestStages(setup, 0) && !RaisesWithin(events0, raiseAt)
      modifies this
      ensures Valid() && ids == old(ids) && runId in runs && runs == old(runs)[runId := runs[runId]]
      ensures InRun(runs[runId], base, events)
      ensures ok ==> events == TestStages(setup, 4) && !RaisesWithin(events, raiseAt)
      ensures !ok ==> StoppedIn(events, TestStages(setup, 4), raiseAt)
    {
      events := events0;
      ok := true;
      var current := 0;
      var n := 1;
      while n <= 4
        invariant 1 <= n <= 5
        invariant Valid() && ids == old(ids) && runId in runs && runs == old(runs)[runId := runs[runId]]
        invariant InRun(runs[runId], base, events)
        invariant events == TestStages(setup, n - 1) && current == Done(setup, n - 1) && !RaisesWithin(events, raiseAt)
      {
        ghost var mid := runs;
        events, ok := RunStageAt(runId, setup, n, events, current, raiseAt, base);
        Overwrite(old(runs), runId, mid[runId], runs[runId]);
        if !ok {
          return;
        }
        current := current + |setup.StageFiles(StageAt(n))|;
        n := n + 1;
      }
    }

    /** The tests of the n-th stage, after those of the stages before it. */
    method RunStageAt(runId: string, setup: RunnerSetup, n: nat, events: seq<Event>, current: nat, raiseAt: Option<nat>,
                      ghost base: RunRecord)
      returns (events': seq<Event>, ok: bool)
      requires 1 <= n <= 4
      requires Valid() && runId in runs && InRun(runs[runId], base, events)
      requires events == TestStages(setup, n - 1) && current == Done(setup, n - 1) && !RaisesWithin(events, raiseAt)
      modifies this
      ensures Valid() && ids == old(ids) && runId in runs && runs == old(runs)[runId := runs[runId]]
      ensures InRun(runs[runId], base, events')
      ensures ok ==> events' == TestStages(setup, n) && !RaisesWithin(events', raiseAt)
      ensures !ok ==> StoppedIn(events', TestStages(setup, 4), raiseAt)
    {
      var s := StageAt(n);
      var files := setup.StageFiles(s);
      DoneBounded(setup, n);
      events', ok := RunTestStage(runId, events, s, setup.samplePath, files, current, Total(setup), raiseAt, base);
      if !ok {
        TestStagesGrow(setup, n, 4);
        StoppedWithin(events', TestStages(setup, n), TestStages(setup, 4), raiseAt);
      }
    }

    /**
     * The consumer/business run from the runner to the reports; on success
     * the whole plan but its final progress 100, otherwise the executed prefix.
     */
    method RunUntilReports(runId: string, setup: RunnerSetup, raiseAt: Option<nat>, ghost base: RunRecord)
      returns (events: seq<Event>, ok: bool)
      requires Valid() && runId in runs && runs[runId].status == Running
      requires runs[runId] == base.(status := Running, message := runs[runId].message)
      modifies this
      ensures Valid() && ids == old(ids) && runId in runs && runs == old(runs)[runId := runs[runId]]
      ensures InRun(runs[runId], base, events)
      ensures ok ==> events + [Progress(100)] == CbPlan(setup) && !RaisesWithin(CbPlan(setup), raiseAt)
      ensures !ok ==> events == Executed(CbPlan(setup), raiseAt) && RaisesWithin(CbPlan(setup), raiseAt)
    {
      ghost var before := runs;
      events, ok := StartRunner(runId, setup, raiseAt, base);
      TestStagesPrefix(setup, 0);
      if !ok {
        StoppedInPlan(events, TestStages(setup, 0), CbPlan(setup), raiseAt);
        return;
      }
      ghost var started := runs[runId];
      events, ok := RunStages(runId, setup, raiseAt, events, base);
      Overwrite(before, runId, started, runs[runId]);
      TestStagesPrefix(setup, 4);
      if !ok {
        StoppedInPlan(events, TestStages(setup, 4), CbPlan(setup), raiseAt);
        return;
      }
      ghost var during := runs[runId];
      ghost var stages := events;
      events, ok := Step(runId, events, "Saving reports...", 95, SaveReports, raiseAt, base);
      Overwrite(before, runId, during, runs[runId]);
      ReportsStep(stages, events, CbPlan(setup), raiseAt, ok);
    }
  }

  /** Saving the reports, the call after the four stages, decides how the plan ends. */
  lemma ReportsStep(stages: seq<Event>, events: seq<Event>, plan: seq<Event>, raiseAt: Option<nat>, ok: bool)
    requires plan == stages + [Progress(95), Eval(SaveReports), Progress(100)]
    requires events == stages + [Progress(95), Eval(SaveReports)] && !RaisesWithin(stages, raiseAt)
    requires ok <==> !RaisesWithin(events, raiseAt)
    ensures ok ==> events + [Progress(100)] == plan && !RaisesWithin(plan, raiseAt)
    ensures !ok ==> events == Executed(plan, raiseAt) && RaisesWithin(plan, raiseAt)
  {
    assert events + [Progress(100)] == plan;
    if !ok {
      assert raiseAt.value == |stages| + 1;
      PrefixGrows(events, events, [Progress(100)]);
      StoppedInPlan(events, events, plan, raiseAt);
    }
  }

  /** A run through n stages is the start of a run through m >= n stages. */
  lemma {:induction false} TestStagesGrow(setup: RunnerSetup, n: nat, m: nat)
    requires n <= m <= 4
    ensures TestStages(setup, n) <= TestStages(setup, m)
    decreases m - n
  {
    if n < m {
      TestStagesGrow(setup, n, m - 1);
      PrefixGrows(TestStages(setup, n), TestStages(setup, m - 1),
                  Blocks(setup.StageFiles(StageAt(m)), 1, TestBlock(StageAt(m), setup.samplePath, Done(setup, m - 1), Total(setup))));
    }
  }

  /** After the next test of a stage, the run either went on through it or stopped inside the stage. */
  lemma TestAdvance(events: seq<Event>, files: seq<string>, s: Stage, samplePath: string, offset: nat, total: nat, i: nat,
                    prev: seq<Event>, next: seq<Event>, raiseAt: Option<nat>)
    requires i < |files|
    requires prev == events + Blocks(files[..i], 1, TestBlock(s, samplePath, offset, total)) && !RaisesWithin(prev, raiseAt)
    requires next == prev + [Progress(Pct(offset + i + 1, total)), Eval(StageCall(s, samplePath, i + 1, files[i]))]
    ensures !RaisesWithin(next, raiseAt) ==> next == events + Blocks(files[..i + 1], 1, TestBlock(s, samplePath, offset, total))
    ensures RaisesWithin(next, raiseAt) ==>
              StoppedIn(next, events + Blocks(files, 1, TestBlock(s, samplePath, offset, total)), raiseAt)
  {
    TestStep(events, files, s, samplePath, offset, total, i);
    if RaisesWithin(next, raiseAt) {
      assert next[|prev|].Progress?;
      assert raiseAt.value == |prev| + 1;
    }
  }

  /** The next test of a stage extends the run by its progress and its call, within the stage. */
  lemma TestStep(pre: seq<Event>, files: seq<string>, s: Stage, samplePath: string, offset: nat, total: nat, i: nat)
    requires i < |files|
    ensures pre + Blocks(files[..i], 1, TestBlock(s, samplePath, offset, total))
              + [Progress(Pct(offset + i + 1, total)), Eval(StageCall(s, samplePath, i + 1, files[i]))]
            == pre + Blocks(files[..i + 1], 1, TestBlock(s, samplePath, offset, total))
    ensures pre + Blocks(files[..i + 1], 1, TestBlock(s, samplePath, offset, total))
            <= pre + Blocks(files, 1, TestBlock(s, samplePath, offset, total))
  {
    var block := TestBlock(s, samplePath, offset, total);
    var e1, e2 := Progress(Pct(offset + i + 1, total)), Eval(StageCall(s, samplePath, i + 1, files[i]));
    TestBlockAt(s, samplePath, offset, total, i, files[i]);
    BlockExtends(pre, files, block, i, [e1, e2]);
  }

  /** The block of the sample at position 1 + i: its progress, then its call. */
  lemma TestBlockAt(s: Stage, samplePath: string, offset: nat, total: nat, i: nat, f: string)
    ensures TestBlock(s, samplePath, offset, total)(1 + i, f)
            == [Progress(Pct(offset + i + 1, total)), Eval(StageCall(s, samplePath, i + 1, f))]
  {
    assert offset + (1 + i) == offset + i + 1;
  }

  /** A plan whose first event is a call that raises stops right after it. */
  lemma FirstCallRaises(e: Event, rest: seq<Event>, plan: seq<Event>, raiseAt: Option<nat>)
    requires plan == [e] + rest && e.Eval? && raiseAt == Some(0)
    ensures StoppedIn([e], plan, raiseAt)
  {
    PrefixGrows([e], [e], rest);
  }

  /** A plan that ends with a progress update raises only where the events before it do. */
  lemma ClosingProgress(events: seq<Event>, plan: seq<Event>, p: int, raiseAt: Option<nat>)
    requires |events| + 1 == |plan| && events == plan[..|events|] && plan[|events|] == Progress(p)
    requires !RaisesWithin(events, raiseAt)
    ensures events + [Progress(p)] == plan && !RaisesWithin(plan, raiseAt)
  {
    assert events + [Progress(p)] == plan;
    if raiseAt.Some? && raiseAt.value < |events| {
      assert plan[raiseAt.value] == events[raiseAt.value];
    }
  }

  /** Updating a record twice leaves the second value. */
  lemma Overwrite(m: map<string, RunRecord>, k: string, first: RunRecord, second: RunRecord)
    ensures m[k := first][k := second] == m[k := second]
  {
  }

  /** The tests of the first n stages are among all of them. */
  lemma {:induction false} DoneBounded(setup: RunnerSetup, n: nat)
    requires n <= 4
    ensures Done(setup, n) <= Total(setup)
    decreases 4 - n
  {
    if n < 4 {
      DoneBounded(setup, n + 1);
    }
  }
}
