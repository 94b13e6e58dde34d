/**
 * Collecting the evaluator's outputs after a test (`copy_latest_outputs`):
 * every report of the wanted type found in a subdirectory of the output
 * folder is copied to one fixed name at the top of the folder, and the newest
 * batch file is copied next to it.
 */
module Collect {
  import opened Wrappers
  import opened Text
  import opened Storage
  import opened Pipeline

  /**
   * `k` is a file the walk meets in a directory other than `out` itself
   * (os.walk's `root != output_folder`) whose name ends in `suffix`.
   */
  predicate IsReportSource(k: string, out: string, suffix: string) {
    StartsWith(k, out + "/") && Dirname(k) != out && EndsWith(Basename(k), suffix)
  }

  /** Only strict subdirectories count: a file directly in `out` is never a source. */
  lemma ReportSourceDepth(k: string, out: string, suffix: string)
    requires StartsWith(k, out + "/")
    ensures IsReportSource(k, out, suffix) <==> '/' in k[|out| + 1..] && EndsWith(Basename(k), suffix)
  {
    assert k == out + "/" + k[|out| + 1..];
    DirnameOfChild(out, k[|out| + 1..]);
  }

  lemma JoinedDiffers(out: string, rest: string, name: string)
    requires '/' in rest && '/' !in name
    ensures out + "/" + rest != PathJoin(out, name)
  {
    var k := out + "/" + rest;
    var dst := PathJoin(out, name);
    assert k[|out|] == '/';
    if |out| > 0 && !EndsWith(out, "/") {
      assert k[|out| + 1..] == rest;
      assert dst[|out| + 1..] == name;
    } else if |name| > 0 {
      assert dst == out + name;
      assert dst[|out|] == name[0];
    } else {
      assert dst == out;
    }
  }

  /** For a suffix without separator, the base name ends with it exactly when the path does. */
  lemma {:induction false} BasenameEndsWith(k: string, suffix: string)
    requires '/' !in suffix
    ensures EndsWith(Basename(k), suffix) <==> EndsWith(k, suffix)
    decreases |k|
  {
    if '/' in k {
      var i := IndexOfChar(k, '/');
      BasenameEndsWith(k[i + 1..], suffix);
      EndsWithAfterSeparator(k, i, suffix);
    }
  }

  /** A suffix without separator ends a path exactly when it ends what follows any separator. */
  lemma EndsWithAfterSeparator(k: string, i: nat, suffix: string)
    requires i < |k| && k[i] == '/' && '/' !in suffix
    ensures EndsWith(k[i + 1..], suffix) <==> EndsWith(k, suffix)
  {
    var tail := k[i + 1..];
    if EndsWith(k, suffix) {
      assert forall j :: |k| - |suffix| <= j < |k| ==> k[j] == suffix[j - (|k| - |suffix|)];
      assert |suffix| <= |tail|;
      assert tail[|tail| - |suffix|..] == k[|k| - |suffix|..];
    }
    if EndsWith(tail, suffix) {
      assert tail[|tail| - |suffix|..] == k[|k| - |suffix|..];
    }
  }

  /** The walk's test, stated on the path: below a subfolder of `out`, ending in `suffix`. */
  lemma ReportSourceShape(k: string, out: string, suffix: string)
    requires StartsWith(k, out + "/") && '/' !in suffix
    ensures IsReportSource(k, out, suffix) <==> '/' in k[|out| + 1..] && EndsWith(k, suffix)
  {
    ReportSourceDepth(k, out, suffix);
    BasenameEndsWith(k, suffix);
  }

  /** The path test the collection loop applies; `ReportSourceShape` ties it to the walk's. */
  predicate InSubfolderEndingWith(k: string, out: string, suffix: string) {
    StartsWith(k, out + "/") && '/' in k[|out| + 1..] && EndsWith(k, suffix)
  }

  /** A report the loop copies: found by the walk, and its copy does not fail. */
  predicate Wanted(k: string, out: string, suffix: string, fails: set<string>) {
    InSubfolderEndingWith(k, out, suffix) && k !in fails
  }

  /** The wanted entries of `files`, in order. */
  function Picked(files: seq<string>, out: string, suffix: string, fails: set<string>): seq<string> {
    if |files| == 0 then []
    else
      var k := files[|files| - 1];
      Picked(files[..|files| - 1], out, suffix, fails) + (if Wanted(k, out, suffix, fails) then [k] else [])
  }

  lemma {:induction false} PickedMembers(files: seq<string>, out: string, suffix: string, fails: set<string>)
    ensures forall k :: k in Picked(files, out, suffix, fails) <==> k in files && Wanted(k, out, suffix, fails)
    decreases |files|
  {
    if |files| > 0 {
      var init := files[..|files| - 1];
      PickedMembers(init, out, suffix, fails);
      assert files == init + [files[|files| - 1]];
    }
  }

  /** The reports copied, in walk order: sources whose copy does not fail. */
  function CopiedReports(fs: Store, out: string, suffix: string, fails: set<string>): (r: seq<string>)
    requires fs.Valid() && '/' !in suffix
    ensures forall k :: k in r <==> IsFile(fs, k) && IsReportSource(k, out, suffix) && k !in fails
  {
    var r := Picked(FilesUnder(fs, out), out, suffix, fails);
    PickedMembers(FilesUnder(fs, out), out, suffix, fails);
    assert forall k :: k in r <==> IsFile(fs, k) && IsReportSource(k, out, suffix) && k !in fails by {
      forall k | StartsWith(k, out + "/")
        ensures IsReportSource(k, out, suffix) <==> InSubfolderEndingWith(k, out, suffix)
      {
        ReportSourceShape(k, out, suffix);
      }
    }
    r
  }

  /** `fs` with `dst` holding the content of the last of `copies`, if any. */
  function LastCopied(fs: Store, dst: string, copies: seq<string>): (r: Store)
    requires fs.Valid() && forall k :: k in copies ==> k in fs.data
    ensures r.Valid()
    ensures |copies| == 0 ==> r == fs
    ensures |copies| > 0 ==> r.data == fs.data[dst := fs.data[copies[|copies| - 1]]]
  {
    if |copies| == 0 then fs else Put(fs, dst, fs.data[copies[|copies| - 1]])
  }

  /** Copying one more source, which is not the target, onto the target. */
  lemma LastCopiedStep(fs: Store, dst: string, copies: seq<string>, k: string)
    requires fs.Valid() && forall x :: x in copies ==> x in fs.data
    requires k in fs.data && k != dst
    ensures var before := LastCopied(fs, dst, copies);
            k in before.data && LastCopied(fs, dst, copies + [k]) == Copy(before, k, dst)
  {
    var before := LastCopied(fs, dst, copies);
    assert before.data[k] == fs.data[k];
    assert (copies + [k])[|copies|] == k;
  }

  /** The store once the reports are copied: the collected name holds the last report copied. */
  function ReportsCollected(fs: Store, out: string, name: string, suffix: string, fails: set<string>): (r: Store)
    requires fs.Valid() && '/' !in suffix
    ensures r.Valid()
    ensures var copies := CopiedReports(fs, out, suffix, fails);
            && (|copies| == 0 ==> r == fs)
            && (|copies| > 0 ==> IsReportSource(copies[|copies| - 1], out, suffix) &&
                                 r.data == fs.data[PathJoin(out, name) := fs.data[copies[|copies| - 1]]])
  {
    LastCopied(fs, PathJoin(out, name), CopiedReports(fs, out, suffix, fails))
  }

  /** The wanted entries of one more file: it is added when wanted; all of them are in the store. */
  lemma PickedNext(files: seq<string>, i: nat, out: string, suffix: string, fails: set<string>, fs: Store)
    requires i < |files|
    requires forall x :: x in files ==> x in fs.data && StartsWith(x, out + "/")
    ensures Wanted(files[i], out, suffix, fails) ==>
              Picked(files[..i + 1], out, suffix, fails) == Picked(files[..i], out, suffix, fails) + [files[i]]
    ensures !Wanted(files[i], out, suffix, fails) ==>
              Picked(files[..i + 1], out, suffix, fails) == Picked(files[..i], out, suffix, fails)
    ensures StartsWith(files[i], out + "/")
    ensures Wanted(files[i], out, suffix, fails) <==> '/' in files[i][|out| + 1..] && EndsWith(files[i], suffix) && files[i] !in fails
    ensures forall x :: x in Picked(files[..i + 1], out, suffix, fails) ==> x in fs.data
  {
    assert files[..i + 1][..i] == files[..i];
    assert files[i] in files;
    if !Wanted(files[i], out, suffix, fails) {
      assert Picked(files[..i], out, suffix, fails) + [] == Picked(files[..i], out, suffix, fails);
    }
    PickedMembers(files[..i + 1], out, suffix, fails);
    forall x | x in files[..i + 1]
      ensures x in files
    {
    }
  }

  /** Copying the next wanted file onto `out/name` extends the copies. */
  lemma CopyNext(fs: Store, out: string, name: string, copies: seq<string>, k: string)
    requires fs.Valid() && '/' !in name && forall x :: x in copies ==> x in fs.data
    requires k in fs.data && StartsWith(k, out + "/") && '/' in k[|out| + 1..]
    ensures var before := LastCopied(fs, PathJoin(out, name), copies);
            k in before.data && LastCopied(fs, PathJoin(out, name), copies + [k]) == Copy(before, k, PathJoin(out, name))
  {
    JoinedDiffers(out, k[|out| + 1..], name);
    assert k == out + "/" + k[|out| + 1..];
    LastCopiedStep(fs, PathJoin(out, name), copies, k);
  }

  /**
   * The copy loop over the walked files: each wanted one is copied to
   * `out/name`, later ones overwriting earlier ones; one entry per copy.
   */
  method CopyEach(fs: Store, files: seq<string>, out: string, name: string, suffix: string, fails: set<string>)
    returns (fs': Store, copied: seq<string>)
    requires fs.Valid() && '/' !in name
    requires forall x :: x in files ==> x in fs.data && StartsWith(x, out + "/")
    ensures forall x :: x in Picked(files, out, suffix, fails) ==> x in fs.data
    ensures fs' == LastCopied(fs, PathJoin(out, name), Picked(files, out, suffix, fails))
    ensures |copied| == |Picked(files, out, suffix, fails)|
    ensures forall j :: 0 <= j < |copied| ==> copied[j] == name
  {
    var dst := PathJoin(out, name);
    fs' := fs;
    copied := [];
    var i := 0;
    while i < |files|
      invariant 0 <= i <= |files|
      invariant forall x :: x in Picked(files[..i], out, suffix, fails) ==> x in fs.data
      invariant fs' == LastCopied(fs, dst, Picked(files[..i], out, suffix, fails))
      invariant |copied| == |Picked(files[..i], out, suffix, fails)|
      invariant forall j :: 0 <= j < |copied| ==> copied[j] == name
    {
      var k := files[i];
      ghost var c := Picked(files[..i], out, suffix, fails);
      PickedNext(files, i, out, suffix, fails, fs);
      assert k in fs.data;
      if '/' in k[|out| + 1..] && EndsWith(k, suffix) && k !in fails {
        CopyNext(fs, out, name, c, k);
        fs' := Copy(fs', k, dst);
        copied := copied + [name];
      }
      i := i + 1;
    }
    assert files[..|files|] == files;
  }

  /**
   * Walks `out` and copies every report of the wanted type found in a
   * subfolder to `out/name`; a failing copy is skipped. Returns one entry per
   * successful copy.
   */
  method CopyReports(fs: Store, out: string, name: string, suffix: string, fails: set<string>)
    returns (fs': Store, copied: seq<string>)
    requires fs.Valid() && '/' !in name && '/' !in suffix
    ensures fs' == ReportsCollected(fs, out, name, suffix, fails)
    ensures |copied| == |CopiedReports(fs, out, suffix, fails)|
    ensures forall j :: 0 <= j < |copied| ==> copied[j] == name
  {
    var files := FilesUnder(fs, out);
    fs', copied := CopyEach(fs, files, out, name, suffix, fails);
  }

  // ---------------------------------------------------------------------------
  // The batch file

  /** The first path with the greatest modification time (`max(files, key=os.path.getmtime)`). */
  function Latest(paths: seq<string>, mtime: string -> int): (r: string)
    requires |paths| > 0
    ensures r in paths
    ensures forall p :: p in paths ==> mtime(p) <= mtime(r)
    ensures exists i :: 0 <= i < |paths| && paths[i] == r && forall j :: 0 <= j < i ==> mtime(paths[j]) < mtime(r)
  {
    if |paths| == 1 then paths[0]
    else
      var rest := Latest(paths[1..], mtime);
      if mtime(paths[0]) >= mtime(rest) then paths[0]
      else
        var i :| 0 <= i < |paths[1..]| && paths[1..][i] == rest && forall j :: 0 <= j < i ==> mtime(paths[1..][j]) < mtime(rest);
        assert paths[i + 1] == rest;
        rest
  }

  /** The name ending a batch file of the segment: categorised for Consumer/Business, tagged otherwise. */
  function BatchPattern(segment: string): string {
    if segment == "Consumer" || segment == "Business" then "categorized.csv" else "tagged.csv"
  }

  /** The paths a glob of `dir` for the pattern star-`ending` returns: visible entries of `dir` ending in `ending`. */
  function GlobEnding(fs: Store, dir: string, ending: string): seq<string>
    requires fs.Valid()
  {
    var names := Filter(ListDir(fs, dir), n => EndsWith(n, ending) && !StartsWith(n, "."));
    seq(|names|, i requires 0 <= i < |names| => PathJoin(dir, names[i]))
  }

  /** The glob returns exactly the joined visible names ending in `ending`. */
  lemma GlobEndingMembers(fs: Store, dir: string, ending: string)
    requires fs.Valid()
    ensures forall p :: p in GlobEnding(fs, dir, ending) <==>
              exists n :: n in ListDir(fs, dir) && EndsWith(n, ending) && !StartsWith(n, ".") && p == PathJoin(dir, n)
  {
    var names := Filter(ListDir(fs, dir), n => EndsWith(n, ending) && !StartsWith(n, "."));
    var r := GlobEnding(fs, dir, ending);
    forall p
      ensures p in r <==> exists n :: n in names && p == PathJoin(dir, n)
    {
      if exists n :: n in names && p == PathJoin(dir, n) {
        var n :| n in names && p == PathJoin(dir, n);
        var i :| 0 <= i < |names| && names[i] == n;
        assert r[i] == p;
      }
    }
  }

  /**
   * The batch copy: when the batch directory holds a matching file, the newest
   * one is copied to `out/name`. Returns the new store and whether a copy was
   * made; a failing copy (or a match that is not a regular file) changes nothing.
   */
  function BatchCollected(fs: Store, out: string, name: string, batchDir: string, segment: string,
                          mtime: string -> int, fails: set<string>): (r: (Store, bool))
    requires fs.Valid()
    ensures r.0.Valid()
    ensures !r.1 ==> r.0 == fs
    ensures r.1 ==> PathJoin(out, name) in r.0.data &&
                    forall k :: k != PathJoin(out, name) ==> (k in r.0.data <==> k in fs.data) &&
                                                             (k in fs.data ==> r.0.data[k] == fs.data[k])
  {
    var files := GlobEnding(fs, batchDir, BatchPattern(segment));
    if |files| == 0 then (fs, false)
    else
      var latest := Latest(files, mtime);
      if IsFile(fs, latest) && latest !in fails then (Copy(fs, latest, PathJoin(out, name)), true)
      else (fs, false)
  }

  /** A batch copy that happens copies a newest matching file, one that is a regular file whose copy does not fail. */
  lemma BatchCollectedNewest(fs: Store, out: string, name: string, batchDir: string, segment: string,
                             mtime: string -> int, fails: set<string>)
    requires fs.Valid()
    ensures var r := BatchCollected(fs, out, name, batchDir, segment, mtime, fails);
            var files := GlobEnding(fs, batchDir, BatchPattern(segment));
            r.1 ==> exists p :: p in files && IsFile(fs, p) && p !in fails && r.0 == Copy(fs, p, PathJoin(out, name))
                                 && forall q :: q in files ==> mtime(q) <= mtime(p)
  {
    var files := GlobEnding(fs, batchDir, BatchPattern(segment));
    var r := BatchCollected(fs, out, name, batchDir, segment, mtime, fails);
    if |files| > 0 {
      var latest := Latest(files, mtime);
      if IsFile(fs, latest) && latest !in fails {
        assert r.0 == Copy(fs, latest, PathJoin(out, name));
      }
    }
  }

  // ---------------------------------------------------------------------------
  // One collection (`copy_latest_outputs`)

  /**
   * What a collection depends on besides the report type: the output folder,
   * the segment, country code, model name and date that make up the collected
   * names, the batch directory (none when it cannot be located), the
   * modification times, and the sources whose copy fails.
   */
  datatype CollectEnv = CollectEnv(out: string, segment: string, code: string, modelName: string, date: string,
                                   batchDir: Option<string>, mtime: string -> int, fails: set<string>)
  {
    /** The parts of the collected names contain no separator. */
    predicate Flat() {
      '/' !in segment && '/' !in code && '/' !in date
    }

    function Flag(): string {
      PopulationFlag(modelName, code)
    }
  }

  /**
   * A collection that copies the reports ending in `suffix` to `name` and the
   * newest batch file to `batchName`: the store afterwards, and the names
   * reported as copied (one per report copied, then the batch name if it was
   * copied).
   */
  function CollectedInto(fs: Store, env: CollectEnv, name: string, batchName: string, suffix: string): (r: (Store, seq<string>))
    requires fs.Valid() && '/' !in suffix
    ensures r.0.Valid()
    ensures forall k :: k != PathJoin(env.out, name) && k != PathJoin(env.out, batchName) ==>
              (k in r.0.data <==> k in fs.data) && (k in fs.data ==> r.0.data[k] == fs.data[k])
  {
    var reports := seq(|CopiedReports(fs, env.out, suffix, env.fails)|, _ => name);
    var fs1 := ReportsCollected(fs, env.out, name, suffix, env.fails);
    assert forall k :: k != PathJoin(env.out, name) ==>
             (k in fs1.data <==> k in fs.data) && (k in fs.data ==> fs1.data[k] == fs.data[k]);
    if env.batchDir.None? then (fs1, reports)
    else
      var b := BatchCollected(fs1, env.out, batchName, env.batchDir.value, env.segment, env.mtime, env.fails);
      (b.0, if b.1 then reports + [batchName] else reports)
  }

  /** The store after collecting the reports of type `t` and the newest batch file. */
  function Collected(fs: Store, env: CollectEnv, t: ReportType): (r: Store)
    requires fs.Valid() && env.Flat()
    ensures r.Valid()
    ensures forall k :: k != PathJoin(env.out, ReportName(t, env.code, env.segment, env.Flag(), env.date)) &&
                        k != PathJoin(env.out, BatchName(t, env.code, env.segment, env.Flag(), env.date)) ==>
              (k in r.data <==> k in fs.data) && (k in fs.data ==> r.data[k] == fs.data[k])
  {
    CollectedInto(fs, env, ReportName(t, env.code, env.segment, env.Flag(), env.date),
                  BatchName(t, env.code, env.segment, env.Flag(), env.date), Suffix(t)).0
  }

  /** The names reported as copied by a collection of type `t`. */
  function CollectedNames(fs: Store, env: CollectEnv, t: ReportType): seq<string>
    requires fs.Valid() && env.Flat()
  {
    CollectedInto(fs, env, ReportName(t, env.code, env.segment, env.Flag(), env.date),
                  BatchName(t, env.code, env.segment, env.Flag(), env.date), Suffix(t)).1
  }

  /** Every name reported as copied is one of the two target names; at most one more than the reports copied. */
  lemma CollectedIntoNames(fs: Store, env: CollectEnv, name: string, batchName: string, suffix: string)
    requires fs.Valid() && '/' !in suffix
    ensures forall n :: n in CollectedInto(fs, env, name, batchName, suffix).1 ==> n == name || n == batchName
    ensures |CollectedInto(fs, env, name, batchName, suffix).1| <= |CopiedReports(fs, env.out, suffix, env.fails)| + 1
  {
    var reports := seq(|CopiedReports(fs, env.out, suffix, env.fails)|, _ => name);
    assert forall n :: n in reports ==> n == name;
    var names := CollectedInto(fs, env, name, batchName, suffix).1;
    assert names == reports || names == reports + [batchName];
  }

  /** Every name reported as copied is a collected name of this type; none is a source name. */
  lemma CollectedNamesShape(fs: Store, env: CollectEnv, t: ReportType)
    requires fs.Valid() && env.Flat()
    ensures forall n :: n in CollectedNames(fs, env, t) ==>
              n == ReportName(t, env.code, env.segment, env.Flag(), env.date)
              || n == BatchName(t, env.code, env.segment, env.Flag(), env.date)
    ensures |CollectedNames(fs, env, t)| <= |CopiedReports(fs, env.out, Suffix(t), env.fails)| + 1
  {
    CollectedIntoNames(fs, env, ReportName(t, env.code, env.segment, env.Flag(), env.date),
                       BatchName(t, env.code, env.segment, env.Flag(), env.date), Suffix(t));
  }

  /**
   * Copies the reports of type `t` found in subfolders of the output folder,
   * then the newest batch file, to their collected names. A failed copy is
   * skipped; without a batch directory the batch copy is skipped. Returns the
   * names copied, in order.
   */
  method CopyLatestOutputs(fs: Store, env: CollectEnv, t: ReportType) returns (fs': Store, copied: seq<string>)
    requires fs.Valid() && env.Flat()
    ensures fs' == Collected(fs, env, t)
    ensures copied == CollectedNames(fs, env, t)
  {
    var flag := PopulationFlag(env.modelName, env.code);
    var name := ReportName(t, env.code, env.segment, flag, env.date);
    var batchName := BatchName(t, env.code, env.segment, flag, env.date);
    CollectedNamesFlat(t, env.code, env.segment, flag, env.date);
    fs', copied := CopyInto(fs, env, name, batchName, Suffix(t));
  }

  /** `copy_latest_outputs` once the target names are known. */
  method CopyInto(fs: Store, env: CollectEnv, name: string, batchName: string, suffix: string)
    returns (fs': Store, copied: seq<string>)
    requires fs.Valid() && '/' !in name && '/' !in suffix
    ensures (fs', copied) == CollectedInto(fs, env, name, batchName, suffix)
  {
    fs', copied := CopyReports(fs, env.out, name, suffix, env.fails);
    assert copied == seq(|CopiedReports(fs, env.out, suffix, env.fails)|, _ => name);
    if env.batchDir.None? {
      return;
    }
    var batched;
    fs', batched := CopyBatch(fs', env.out, batchName, env.batchDir.value, env.segment, env.mtime, env.fails);
    if batched {
      copied := copied + [batchName];
    }
  }

  /** The newest file of the batch directory matching the segment, copied to `out/name` unless the copy fails. */
  method CopyBatch(fs: Store, out: string, name: string, batchDir: string, segment: string,
                   mtime: string -> int, fails: set<string>) returns (fs': Store, copied: bool)
    requires fs.Valid()
    ensures (fs', copied) == BatchCollected(fs, out, name, batchDir, segment, mtime, fails)
  {
    fs', copied := fs, false;
    var files := GlobEnding(fs, batchDir, BatchPattern(segment));
    if |files| > 0 {
      var latest := Latest(files, mtime);
      if IsFile(fs, latest) && latest !in fails {
        fs' := Copy(fs, latest, PathJoin(out, name));
        copied := true;
      }
    }
  }
}
