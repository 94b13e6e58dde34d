/**
 * The object-store helper of the CE backend. The bucket holds the tree
 * `<prefix><country>/<segment>/<date>/{sample,model,output}/...`; the helper
 * lists its folders and files, finds the newest date folder that has models,
 * picks the input files of a segment, downloads a date folder into a local
 * cache (never overwriting what is cached) and uploads a run's outputs.
 * The listings are sorted, as Python's `sorted()` leaves them; pagination is
 * folded into one listing.
 */
module S3Helper {
  import opened Wrappers
  import opened Text
  import opened Storage
  import LambdaHandler

  /** The bucket prefix (`S3_PREFIX`) and the local cache folder (`TEST_SUITE_DATA_PATH`). */
  datatype Settings = Settings(prefix: string, cache: string)

  /** The settings read from the environment, with their defaults. */
  function SettingsFrom(env: map<string, string>): (r: Settings)
    ensures "S3_PREFIX" !in env ==> r.prefix == "TEST_SUITE/"
    ensures "S3_PREFIX" in env ==> r.prefix == env["S3_PREFIX"]
    ensures "TEST_SUITE_DATA_PATH" !in env ==> r.cache == "/data/TEST_SUITE"
    ensures "TEST_SUITE_DATA_PATH" in env ==> r.cache == env["TEST_SUITE_DATA_PATH"]
  {
    Settings(if "S3_PREFIX" in env then env["S3_PREFIX"] else "TEST_SUITE/",
             if "TEST_SUITE_DATA_PATH" in env then env["TEST_SUITE_DATA_PATH"] else "/data/TEST_SUITE")
  }

  // ---------------------------------------------------------------------------
  // Folder listing (`_list_common_prefixes`)

  /** Python `s.rstrip(c)`: `s` without its trailing run of `c`. */
  function RStrip(s: string, c: char): (r: string)
    ensures |r| <= |s| && r == s[..|r|]
    ensures |r| == 0 || r[|r| - 1] != c
    ensures forall i :: |r| <= i < |s| ==> s[i] == c
    decreases |s|
  {
    if |s| > 0 && s[|s| - 1] == c then RStrip(s[..|s| - 1], c) else s
  }

  /** The folder name a common prefix stands for. */
  function FolderName(cp: string, prefix: string): string
    requires StartsWith(cp, prefix)
  {
    RStrip(cp[|prefix|..], '/')
  }

  /** The non-empty folder names of the common prefixes, in listing order. */
  function FolderNames(cps: seq<string>, prefix: string): seq<string>
    requires forall c :: c in cps ==> StartsWith(c, prefix)
    decreases |cps|
  {
    if |cps| == 0 then []
    else
      var c := cps[|cps| - 1];
      var n := FolderName(c, prefix);
      FolderNames(cps[..|cps| - 1], prefix) + (if n != "" then [n] else [])
  }

  lemma {:induction false} FolderNamesMembers(cps: seq<string>, prefix: string, n: string)
    requires forall c :: c in cps ==> StartsWith(c, prefix)
    ensures n in FolderNames(cps, prefix) <==> n != "" && exists c :: c in cps && FolderName(c, prefix) == n
    decreases |cps|
  {
    if |cps| > 0 {
      var init := cps[..|cps| - 1];
      var last := cps[|cps| - 1];
      assert cps == init + [last];
      FolderNamesMembers(init, prefix, n);
      if n != "" && exists c :: c in cps && FolderName(c, prefix) == n {
        var c :| c in cps && FolderName(c, prefix) == n;
        if c != last {
          assert c in init;
        }
      }
    }
  }

  /** Every common prefix lies under the listed prefix. */
  lemma CommonPrefixesUnder(bucket: Store, prefix: string)
    ensures forall c :: c in CommonPrefixes(bucket, prefix) ==> StartsWith(c, prefix)
  {
    forall c | c in CommonPrefixes(bucket, prefix)
      ensures StartsWith(c, prefix)
    {
      var k :| k in bucket.keys && RollsUp(k, prefix) && c == FolderPrefix(k, prefix);
      FolderPrefixShape(k, prefix);
    }
  }

  /** The sorted, non-empty names of the folders directly under `prefix`. */
  function ChildFolders(bucket: Store, prefix: string): (r: seq<string>)
    ensures Ascending(r)
  {
    CommonPrefixesUnder(bucket, prefix);
    SortStrings(FolderNames(CommonPrefixes(bucket, prefix), prefix))
  }

  /** The folder a key rolls up into has the name of the key's first path segment. */
  lemma FolderNameOfKey(k: string, prefix: string)
    requires RollsUp(k, prefix)
    ensures var n := FolderName(FolderPrefix(k, prefix), prefix);
            '/' !in n && StartsWith(k, prefix + n + "/")
  {
    var rest := Rest(k, prefix);
    var i := IndexOfChar(rest, '/');
    var head := rest[..i];
    assert rest[..i + 1] == head + "/";
    var c := FolderPrefix(k, prefix);
    assert c == prefix + (head + "/");
    assert c[|prefix|..] == head + "/";
    RStripOneSeparator(head);
    assert FolderName(c, prefix) == head;
    assert k == prefix + rest;
    assert k[..|prefix| + i + 1] == prefix + (head + "/");
    assert prefix + head + "/" == prefix + (head + "/");
  }

  /** A key below `prefix + n + "/"` rolls up into the folder `n`. */
  lemma KeyInFolder(k: string, prefix: string, n: string)
    requires n != "" && '/' !in n && StartsWith(k, prefix + n + "/")
    ensures RollsUp(k, prefix) && FolderName(FolderPrefix(k, prefix), prefix) == n
  {
    assert k[..|prefix|] == (prefix + n + "/")[..|prefix|] == prefix;
    var rest := Rest(k, prefix);
    assert rest[..|n| + 1] == n + "/";
    assert rest[|n|] == '/';
    assert rest[..|n|] == n;
    IndexOfCharIs(rest, '/', |n|);
    var c := FolderPrefix(k, prefix);
    assert c == prefix + n + "/";
    assert c[|prefix|..] == n + "/";
    RStripOneSeparator(n);
  }

  /** Stripping the one separator after a `/`-free name gives back the name. */
  lemma RStripOneSeparator(x: string)
    requires '/' !in x
    ensures RStrip(x + "/", '/') == x
  {
    assert (x + "/")[..|x|] == x;
    if |x| > 0 {
      assert x[|x| - 1] in x;
    }
  }

  /** `_list_common_prefixes`: exactly the non-empty, `/`-free names `n` with some key below `prefix + n + "/"`. */
  lemma ChildFolderMembers(bucket: Store, prefix: string, n: string)
    ensures n in ChildFolders(bucket, prefix) <==>
            n != "" && '/' !in n && exists k :: k in bucket.keys && StartsWith(k, prefix + n + "/")
  {
    var cps := CommonPrefixes(bucket, prefix);
    CommonPrefixesUnder(bucket, prefix);
    FolderNamesMembers(cps, prefix, n);
    if n in ChildFolders(bucket, prefix) {
      var c :| c in cps && FolderName(c, prefix) == n;
      var k :| k in bucket.keys && RollsUp(k, prefix) && c == FolderPrefix(k, prefix);
      FolderNameOfKey(k, prefix);
    }
    if n != "" && '/' !in n && exists k :: k in bucket.keys && StartsWith(k, prefix + n + "/") {
      var k :| k in bucket.keys && StartsWith(k, prefix + n + "/");
      KeyInFolder(k, prefix, n);
      assert FolderPrefix(k, prefix) in cps;
    }
  }

  /** `_list_common_prefixes(prefix)`: collects the folder names page by page, then sorts them. */
  method ListCommonPrefixes(bucket: Store, prefix: string) returns (r: seq<string>)
    ensures r == ChildFolders(bucket, prefix)
  {
    var cps := CommonPrefixes(bucket, prefix);
    CommonPrefixesUnder(bucket, prefix);
    var result: seq<string> := [];
    for i := 0 to |cps|
      invariant result == FolderNames(cps[..i], prefix)
    {
      assert cps[..i + 1][..i] == cps[..i];
      assert cps[i] in cps;
      var name := RStrip(cps[i][|prefix|..], '/');
      if name != "" {
        result := result + [name];
      }
    }
    assert cps[..|cps|] == cps;
    r := SortStrings(result);
  }

  /** `list_countries()`. */
  function Countries(bucket: Store, s: Settings): (r: seq<string>)
    ensures Ascending(r)
  {
    ChildFolders(bucket, s.prefix)
  }

  /** `list_segments(country)`. */
  function Segments(bucket: Store, s: Settings, country: string): (r: seq<string>)
    ensures Ascending(r)
  {
    ChildFolders(bucket, s.prefix + country + "/")
  }

  // ---------------------------------------------------------------------------
  // File listing (`_list_files`)

  /** A file name `name` that passes the optional suffix filter. */
  predicate SuffixOk(name: string, suffix: Option<string>) {
    suffix.None? || EndsWith(name, suffix.value)
  }

  /** The names of the direct keys, in listing order, that are non-empty and pass the suffix filter. */
  function FileNames(keys: seq<string>, prefix: string, suffix: Option<string>): seq<string>
    requires forall k :: k in keys ==> StartsWith(k, prefix)
    decreases |keys|
  {
    if |keys| == 0 then []
    else
      var k := keys[|keys| - 1];
      assert k in keys && StartsWith(k, prefix);
      var name := k[|prefix|..];
      FileNames(keys[..|keys| - 1], prefix, suffix) + (if name != "" && '/' !in name && SuffixOk(name, suffix) then [name] else [])
  }

  lemma {:induction false} FileNamesMembers(keys: seq<string>, prefix: string, suffix: Option<string>, n: string)
    requires forall k :: k in keys ==> StartsWith(k, prefix)
    ensures n in FileNames(keys, prefix, suffix) <==>
            n != "" && '/' !in n && SuffixOk(n, suffix) && prefix + n in keys
    decreases |keys|
  {
    if |keys| > 0 {
      var init := keys[..|keys| - 1];
      var last := keys[|keys| - 1];
      assert keys == init + [last];
      FileNamesMembers(init, prefix, suffix, n);
      assert last in keys;
      assert StartsWith(last, prefix);
      assert last == prefix + last[|prefix|..];
      if prefix + n == last {
        assert last[|prefix|..] == n;
      }
    }
  }

  /** The sorted names of the files directly under `prefix` that pass the suffix filter. */
  function DirectFiles(bucket: Store, prefix: string, suffix: Option<string>): (r: seq<string>)
    ensures Ascending(r)
  {
    var keys := DirectKeys(bucket, prefix);
    SortStrings(FileNames(keys, prefix, suffix))
  }

  /** `_list_files`: exactly the non-empty, `/`-free names `n` with a key `prefix + n` that pass the filter. */
  lemma DirectFileMembers(bucket: Store, prefix: string, suffix: Option<string>, n: string)
    ensures n in DirectFiles(bucket, prefix, suffix) <==>
            n != "" && '/' !in n && SuffixOk(n, suffix) && prefix + n in bucket.keys
  {
    var keys := DirectKeys(bucket, prefix);
    FileNamesMembers(keys, prefix, suffix, n);
    if n != "" && '/' !in n && prefix + n in bucket.keys {
      assert (prefix + n)[..|prefix|] == prefix;
      assert Rest(prefix + n, prefix) == n;
      assert prefix + n in keys;
    }
  }

  /** `_list_files(prefix, suffix)`: collects the file names page by page, then sorts them. */
  method ListFiles(bucket: Store, prefix: string, suffix: Option<string>) returns (r: seq<string>)
    ensures r == DirectFiles(bucket, prefix, suffix)
  {
    var keys := DirectKeys(bucket, prefix);
    assert forall k :: k in keys ==> StartsWith(k, prefix);
    var result: seq<string> := [];
    for i := 0 to |keys|
      invariant result == FileNames(keys[..i], prefix, suffix)
    {
      assert keys[..i + 1][..i] == keys[..i];
      assert keys[i] in keys;
      var name := keys[i][|prefix|..];
      if name != "" && '/' !in name {
        if suffix.None? || EndsWith(name, suffix.value) {
          result := result + [name];
        }
      }
    }
    assert keys[..|keys|] == keys;
    r := SortStrings(result);
  }

  // ---------------------------------------------------------------------------
  // The newest date folder

  /** Some key lies below `<folder>/model/` (the one-key listing reports `KeyCount > 0`). */
  predicate HasModel(bucket: Store, prefix: string, f: string) {
    |ListKeys(bucket, prefix + f + "/model/")| > 0
  }

  /** The greatest date folder of a segment that has a `model/` folder. */
  function LatestDateFolder(bucket: Store, s: Settings, country: string, segment: string): Option<string> {
    var prefix := s.prefix + country + "/" + segment + "/";
    Greatest(Filter(ChildFolders(bucket, prefix), f => HasModel(bucket, prefix, f)))
  }

  /** `find_latest_date_folder`: checks each folder for models, then takes the greatest. */
  method FindLatestDateFolder(bucket: Store, s: Settings, country: string, segment: string) returns (r: Option<string>)
    ensures r == LatestDateFolder(bucket, s, country, segment)
  {
    var prefix := s.prefix + country + "/" + segment + "/";
    var folders := ListCommonPrefixes(bucket, prefix);
    ghost var keep := f => HasModel(bucket, prefix, f);
    var dateFolders: seq<string> := [];
    for i := 0 to |folders|
      invariant dateFolders == Filter(folders[..i], keep)
    {
      FilterPrefixStep(folders, i, keep);
      var modelKeys := ListKeys(bucket, prefix + folders[i] + "/model/");
      if |modelKeys| > 0 {
        dateFolders := dateFolders + [folders[i]];
      }
    }
    assert folders[..|folders|] == folders;
    r := Greatest(dateFolders);
  }

  /**
   * The newest date folder is a folder of the segment with a key below its
   * `model/` folder and no such folder is greater; there is none exactly
   * when no folder of the segment has models.
   */
  lemma LatestDateFolderCorrect(bucket: Store, s: Settings, country: string, segment: string)
    ensures var prefix := s.prefix + country + "/" + segment + "/";
            var r := LatestDateFolder(bucket, s, country, segment);
            (r.None? <==> forall f :: f in ChildFolders(bucket, prefix) ==> !HasModel(bucket, prefix, f)) &&
            (r.Some? ==> r.value in ChildFolders(bucket, prefix) && HasModel(bucket, prefix, r.value) &&
                         exists k :: k in bucket.keys && StartsWith(k, prefix + r.value + "/model/")) &&
            (r.Some? ==> forall f :: f in ChildFolders(bucket, prefix) && HasModel(bucket, prefix, f) ==> LexLe(f, r.value))
  {
    var prefix := s.prefix + country + "/" + segment + "/";
    var r := LatestDateFolder(bucket, s, country, segment);
    var candidates := Filter(ChildFolders(bucket, prefix), f => HasModel(bucket, prefix, f));
    if r.Some? {
      var keys := ListKeys(bucket, prefix + r.value + "/model/");
      assert keys[0] in keys;
    }
  }

  // ---------------------------------------------------------------------------
  // The input files of a segment (`list_files_for_segment`)

  datatype SegmentFiles = SegmentFiles(
    sampleFiles: seq<string>, prodModels: seq<string>, devModels: seq<string>,
    expertRulesOld: seq<string>, expertRulesNew: seq<string>, taggerModels: seq<string>,
    companyLists: seq<string>, dateFolder: string, segmentFolder: string)

  predicate IsSample(f: string) {
    EndsWith(f, ".tsv.gz") || EndsWith(f, ".tsv")
  }

  predicate IsCompanyList(f: string) {
    EndsWith(f, ".xlsx") && Contains(ToLower(f), "compan")
  }

  /** Consumer and Business segments have prod/develop models and expert rules; case-insensitive. */
  predicate HasModelFolders(segment: string) {
    ToLower(segment) == "consumer" || ToLower(segment) == "business"
  }

  /** The expert rules: the `old/` and `new/` lists if either has a zip, else the flat list twice. */
  function ExpertRules(bucket: Store, modelPrefix: string): (seq<string>, seq<string>) {
    var oldRules := DirectFiles(bucket, modelPrefix + "expertrules/old/", Some(".zip"));
    var newRules := DirectFiles(bucket, modelPrefix + "expertrules/new/", Some(".zip"));
    if |oldRules| > 0 || |newRules| > 0 then (oldRules, newRules)
    else
      var flat := DirectFiles(bucket, modelPrefix + "expertrules/", Some(".zip"));
      (flat, flat)
  }

  /** `<prefix><country>/<segment>/<date>/`: the keys of one run's inputs start with it. */
  function RunBase(s: Settings, country: string, segment: string, date: string): string {
    s.prefix + country + "/" + segment + "/" + date + "/"
  }

  function FilesForSegment(bucket: Store, s: Settings, country: string, segment: string, date: string): (r: SegmentFiles)
    ensures r.dateFolder == date && r.segmentFolder == segment
    ensures forall f :: f in r.sampleFiles ==> IsSample(f)
    ensures forall f :: f in r.companyLists ==> IsCompanyList(f)
    ensures var base := RunBase(s, country, segment, date);
            && (forall f :: f in r.sampleFiles <==> f in DirectFiles(bucket, base + "sample/", None) && IsSample(f))
            && (forall f :: f in r.companyLists <==> f in DirectFiles(bucket, base + "sample/", None) && IsCompanyList(f))
    ensures var samples := DirectFiles(bucket, RunBase(s, country, segment, date) + "sample/", None);
            r.sampleFiles == Filter(samples, IsSample) && r.companyLists == Filter(samples, IsCompanyList)
    ensures var modelPrefix := RunBase(s, country, segment, date) + "model/";
            HasModelFolders(segment) ==>
              && r.prodModels == DirectFiles(bucket, modelPrefix + "prod/", Some(".zip"))
              && r.devModels == DirectFiles(bucket, modelPrefix + "develop/", Some(".zip"))
              && (r.expertRulesOld, r.expertRulesNew) == ExpertRules(bucket, modelPrefix)
              && r.taggerModels == []
    ensures var modelPrefix := RunBase(s, country, segment, date) + "model/";
            !HasModelFolders(segment) ==>
              && r.taggerModels == (if ToLower(segment) == "tagger" then DirectFiles(bucket, modelPrefix, Some(".zip")) else [])
              && r.prodModels == r.devModels == r.expertRulesOld == r.expertRulesNew == []
  {
    var base := RunBase(s, country, segment, date);
    var samples := DirectFiles(bucket, base + "sample/", None);
    var modelPrefix := base + "model/";
    var empty := SegmentFiles(Filter(samples, IsSample), [], [], [], [], [], Filter(samples, IsCompanyList), date, segment);
    if HasModelFolders(segment) then
      var (oldRules, newRules) := ExpertRules(bucket, modelPrefix);
      empty.(prodModels := DirectFiles(bucket, modelPrefix + "prod/", Some(".zip")),
             devModels := DirectFiles(bucket, modelPrefix + "develop/", Some(".zip")),
             expertRulesOld := oldRules, expertRulesNew := newRules)
    else if ToLower(segment) == "tagger" then
      empty.(taggerModels := DirectFiles(bucket, modelPrefix, Some(".zip")))
    else empty
  }

  /**
   * The expert-rule policy: when neither `old/` nor `new/` holds a zip, both
   * lists are the same flat listing; otherwise they are the two subfolder
   * listings. Every listed rule is a zip stored directly in the folder it
   * was listed from.
   */
  lemma ExpertRulesPolicy(bucket: Store, modelPrefix: string)
    ensures var (oldRules, newRules) := ExpertRules(bucket, modelPrefix);
            var subOld := DirectFiles(bucket, modelPrefix + "expertrules/old/", Some(".zip"));
            var subNew := DirectFiles(bucket, modelPrefix + "expertrules/new/", Some(".zip"));
            (|subOld| == 0 && |subNew| == 0 ==> oldRules == newRules) &&
            (|subOld| > 0 || |subNew| > 0 ==> oldRules == subOld && newRules == subNew) &&
            (forall n :: n in oldRules ==>
               EndsWith(n, ".zip") &&
               (modelPrefix + "expertrules/old/" + n in bucket.keys || modelPrefix + "expertrules/" + n in bucket.keys))
  {
    var (oldRules, newRules) := ExpertRules(bucket, modelPrefix);
    forall n | n in oldRules
      ensures EndsWith(n, ".zip") &&
              (modelPrefix + "expertrules/old/" + n in bucket.keys || modelPrefix + "expertrules/" + n in bucket.keys)
    {
      DirectFileMembers(bucket, modelPrefix + "expertrules/old/", Some(".zip"), n);
      DirectFileMembers(bucket, modelPrefix + "expertrules/", Some(".zip"), n);
    }
  }

  /** Only Consumer/Business segments list prod, develop and expert files, and only Tagger lists tagger models. */
  lemma SegmentKinds(bucket: Store, s: Settings, country: string, segment: string, date: string)
    ensures var r := FilesForSegment(bucket, s, country, segment, date);
            (!HasModelFolders(segment) ==> r.prodModels == [] && r.devModels == [] && r.expertRulesOld == [] && r.expertRulesNew == []) &&
            (ToLower(segment) != "tagger" ==> r.taggerModels == [])
  {
  }

  // ---------------------------------------------------------------------------
  // Downloads into the local cache

  /** `download_file`: creates the parent folder, then fetches the object unless the local path exists. */
  function DownloadFile(fs: Store, bucket: Store, key: string, localPath: string): (r: Store)
    requires fs.Valid() && key in bucket.data
    ensures r.Valid()
  {
    var made := MakeDirs(fs, Dirname(localPath));
    if Exists(made, localPath) then made else Put(made, localPath, bucket.data[key])
  }

  /**
   * After `download_file` the local path exists and its folder is a
   * directory; no file that was already there changes, and a path that did
   * not exist holds the object's content (a key ending in `/` only makes
   * its folder).
   */
  lemma DownloadFileEffect(fs: Store, bucket: Store, key: string, localPath: string)
    requires fs.Valid() && key in bucket.data && localPath != ""
    ensures var r := DownloadFile(fs, bucket, key, localPath);
            Exists(r, localPath) && IsDir(r, Dirname(localPath)) &&
            (forall p :: p in fs.data ==> p in r.data && r.data[p] == fs.data[p]) &&
            (!Exists(fs, localPath) && !EndsWith(localPath, "/") ==> r.data[localPath] == bucket.data[key])
  {
    var d := Dirname(localPath);
    var made := MakeDirs(fs, d);
    if !Exists(made, localPath) {
      assert localPath !in fs.data;
    }
  }

  /** A repeated download performs no transfer: the second call changes nothing. */
  lemma DownloadFileCached(fs: Store, bucket: Store, key: string, localPath: string)
    requires fs.Valid() && key in bucket.data
    ensures var once := DownloadFile(fs, bucket, key, localPath);
            DownloadFile(once, bucket, key, localPath) == once
  {
  }

  /** The local path of a key: `os.path.join(local_dir, key minus prefix)`. */
  function LocalPath(dir: string, prefix: string, key: string): string
    requires StartsWith(key, prefix)
  {
    PathJoin(dir, key[|prefix|..])
  }

  /** The local store after downloading `keys` in order, skipping the prefix key itself. */
  function DownloadedKeys(fs: Store, bucket: Store, keys: seq<string>, prefix: string, dir: string): (r: Store)
    requires fs.Valid()
    requires forall k :: k in keys ==> k in bucket.data && StartsWith(k, prefix)
    ensures r.Valid()
    ensures forall p :: p in fs.data ==> p in r.data && r.data[p] == fs.data[p]
    decreases |keys|
  {
    if |keys| == 0 then fs
    else
      var before := DownloadedKeys(fs, bucket, keys[..|keys| - 1], prefix, dir);
      var k := keys[|keys| - 1];
      assert k in keys;
      assert StartsWith(k, prefix);
      if k[|prefix|..] == "" then before
      else DownloadFile(before, bucket, k, LocalPath(dir, prefix, k))
  }

  /** Downloading never removes a local path: the cache only grows. */
  lemma DownloadFilePreservesExists(fs: Store, bucket: Store, key: string, localPath: string, p: string)
    requires fs.Valid() && key in bucket.data && Exists(fs, p)
    ensures Exists(DownloadFile(fs, bucket, key, localPath), p)
  {
    var r := DownloadFile(fs, bucket, key, localPath);
    if !(p in fs.data) {
      var k :| k in fs.data && StartsWith(k, p + "/");
      assert k in r.data;
    }
  }

  /** After the download every listed key other than the prefix itself is present locally. */
  lemma {:induction false} DownloadedKeysPresent(fs: Store, bucket: Store, keys: seq<string>, prefix: string, dir: string, k: string)
    requires fs.Valid()
    requires forall x :: x in keys ==> x in bucket.data && StartsWith(x, prefix)
    requires k in keys && StartsWith(k, prefix) && k[|prefix|..] != ""
    ensures Exists(DownloadedKeys(fs, bucket, keys, prefix, dir), LocalPath(dir, prefix, k))
    decreases |keys|
  {
    var init := keys[..|keys| - 1];
    var last := keys[|keys| - 1];
    assert keys == init + [last];
    var before := DownloadedKeys(fs, bucket, init, prefix, dir);
    assert last in keys && StartsWith(last, prefix);
    if last != k {
      assert k in init;
      DownloadedKeysPresent(fs, bucket, init, prefix, dir, k);
      if last[|prefix|..] != "" {
        DownloadFilePreservesExists(before, bucket, last, LocalPath(dir, prefix, last), LocalPath(dir, prefix, k));
      }
    }
  }

  /** `download_prefix`: every key listed under the prefix, in listing order, through the caching download. */
  method DownloadPrefix(fs: Store, bucket: Store, prefix: string, dir: string) returns (fs': Store)
    requires fs.Valid() && bucket.Valid()
    ensures fs' == DownloadedKeys(fs, bucket, ListKeys(bucket, prefix), prefix, dir)
  {
    var keys := ListKeys(bucket, prefix);
    fs' := fs;
    for i := 0 to |keys|
      invariant fs' == DownloadedKeys(fs, bucket, keys[..i], prefix, dir)
    {
      assert keys[..i + 1][..i] == keys[..i];
      assert keys[i] in keys;
      var key := keys[i];
      var relative := key[|prefix|..];
      if relative != "" {
        fs' := DownloadFile(fs', bucket, key, PathJoin(dir, relative));
      }
    }
    assert keys[..|keys|] == keys;
  }

  /** After `download_prefix` every key below the prefix has its local path, and cached files are untouched. */
  lemma DownloadPrefixComplete(fs: Store, bucket: Store, prefix: string, dir: string, k: string)
    requires fs.Valid() && bucket.Valid()
    requires k in bucket.keys && StartsWith(k, prefix) && k != prefix
    ensures var r := DownloadedKeys(fs, bucket, ListKeys(bucket, prefix), prefix, dir);
            Exists(r, LocalPath(dir, prefix, k)) &&
            forall p :: p in fs.data ==> p in r.data && r.data[p] == fs.data[p]
  {
    var keys := ListKeys(bucket, prefix);
    assert k == prefix + k[|prefix|..];
    DownloadedKeysPresent(fs, bucket, keys, prefix, dir, k);
  }

  /** The local folder of a date folder: `LOCAL_CACHE/country/segment/date`. */
  function LocalBase(s: Settings, country: string, segment: string, date: string): string {
    PathJoin(PathJoin(PathJoin(s.cache, country), segment), date)
  }

  /** `download_test_data`: the `sample/` and `model/` folders, then an empty `output/`; returns the local folder. */
  method DownloadTestData(fs: Store, bucket: Store, s: Settings, country: string, segment: string, date: string)
    returns (fs': Store, base: string)
    requires fs.Valid() && bucket.Valid()
    ensures base == LocalBase(s, country, segment, date)
    ensures IsDir(fs', PathJoin(base, "output"))
    ensures forall p :: p in fs.data ==> p in fs'.data && fs'.data[p] == fs.data[p]
    ensures var s3 := s.prefix + country + "/" + segment + "/" + date + "/";
            var afterSample := DownloadedKeys(fs, bucket, ListKeys(bucket, s3 + "sample/"), s3 + "sample/", PathJoin(base, "sample"));
            var afterModel := DownloadedKeys(afterSample, bucket, ListKeys(bucket, s3 + "model/"), s3 + "model/", PathJoin(base, "model"));
            fs' == MakeDirs(afterModel, PathJoin(base, "output"))
  {
    var s3 := s.prefix + country + "/" + segment + "/" + date + "/";
    base := PathJoin(PathJoin(PathJoin(s.cache, country), segment), date);
    fs' := DownloadPrefix(fs, bucket, s3 + "sample/", PathJoin(base, "sample"));
    fs' := DownloadPrefix(fs', bucket, s3 + "model/", PathJoin(base, "model"));
    fs' := MakeDirs(fs', PathJoin(base, "output"));
  }

  // ---------------------------------------------------------------------------
  // Upload of a run's outputs

  /** The key prefix the outputs of a date folder go to. */
  function OutputPrefix(s: Settings, country: string, segment: string, date: string): string {
    s.prefix + country + "/" + segment + "/" + date + "/output/"
  }

  /** `upload_outputs`: every file below the local output folder, in walk order. */
  method UploadOutputs(bucket: Store, fs: Store, s: Settings, country: string, segment: string, date: string, outputLocal: string)
    returns (bucket': Store)
    requires bucket.Valid() && fs.Valid()
    ensures bucket' == LambdaHandler.UploadedDir(bucket, fs, outputLocal, OutputPrefix(s, country, segment, date))
  {
    var base := s.prefix + country + "/" + segment + "/" + date + "/output/";
    bucket' := LambdaHandler.S3UploadDir(bucket, fs, outputLocal, base);
  }

  /** Every uploaded output keeps its content under `<prefix><country>/<segment>/<date>/output/<relative path>`. */
  lemma UploadOutputsPlacesFiles(bucket: Store, fs: Store, s: Settings, country: string, segment: string, date: string,
                                 outputLocal: string, f: string)
    requires bucket.Valid() && fs.Valid()
    requires IsFile(fs, f) && StartsWith(f, outputLocal + "/")
    requires LambdaHandler.SlashOnly(FilesUnder(fs, outputLocal), outputLocal)
    ensures var key := OutputPrefix(s, country, segment, date) + f[|outputLocal| + 1..];
            var r := LambdaHandler.UploadedDir(bucket, fs, outputLocal, OutputPrefix(s, country, segment, date));
            key in r.data && r.data[key] == fs.data[f]
  {
    var prefix := OutputPrefix(s, country, segment, date);
    var files := FilesUnder(fs, outputLocal);
    LambdaHandler.UploadedContents(bucket, fs, files, outputLocal, prefix, f);
    assert '\\' !in f[|outputLocal| + 1..];
    ReplaceCharAbsent(f[|outputLocal| + 1..], '\\', '/');
  }
}
