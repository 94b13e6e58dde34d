/**
 * What the test-orchestration scripts share: the calls made on the external
 * evaluator (`TestRunner` / the Tagger `TestRunner`), the events of a run, the
 * way an exception raised by one call cuts a run short, the deterministic
 * sample tags, the four report types and the names under which collected
 * reports are stored.
 */
module Pipeline {
  import opened Wrappers
  import opened Text
  import opened Storage

  /** One call on the evaluator, with the arguments that vary between runs. */
  datatype Call =
    | NewRunner(oldModel: string, newModel: string, output: string, oldRules: Option<string>, newRules: Option<string>)
    | NewTaggerRunner(oldModel: string, newModel: string, output: string)
    | CrossValidation(oldRules: Option<string>, newRules: Option<string>)
    | ValidationScores(sample: string, tag: string)
    | ValidationDistribution(sample: string, stabilityTag: Option<string>)
    | TaggerCrossValidation
    | TaggerDistribution(sample: string, companies: Option<string>)
    | SaveReports
    | SaveTaggerReports

  datatype ReportType = ACC | ANOM | PREC | STAB

  /** What a run does, in order: evaluator calls, report collections, progress updates. */
  datatype Event = Eval(call: Call) | Collect(report: ReportType) | Progress(percent: int)

  /**
   * The evaluator as seen from outside: the files the call at each position
   * of the run writes, and the position of the call that raises, if any.
   */
  datatype Evaluator = Evaluator(raiseAt: Option<nat>, writes: nat -> seq<(string, string)>)

  // ---------------------------------------------------------------------------
  // Tags

  lemma {:induction false} NatToStringInjective(a: nat, b: nat)
    requires NatToString(a) == NatToString(b)
    ensures a == b
    decreases a
  {
    var s := NatToString(a);
    assert s[|s| - 1] == '0' + (a % 10) as char;
    assert s[|s| - 1] == '0' + (b % 10) as char;
    if a >= 10 && b >= 10 {
      assert NatToString(a / 10) == s[..|s| - 1] == NatToString(b / 10);
      NatToStringInjective(a / 10, b / 10);
    }
  }

  /** The tag of the i-th accuracy sample (1-based). */
  function AccuracyTag(i: nat): string {
    "A_" + NatToString(i)
  }

  /** The tag of the i-th stability sample (1-based). */
  function StabilityTag(i: nat): string {
    "S_" + NatToString(i)
  }

  /** Tags identify the sample's stage and position: no two samples share one. */
  lemma TagsDistinct(i: nat, j: nat)
    ensures AccuracyTag(i) == AccuracyTag(j) <==> i == j
    ensures StabilityTag(i) == StabilityTag(j) <==> i == j
    ensures AccuracyTag(i) != StabilityTag(j)
    ensures AccuracyTag(i) != "ANOM" && AccuracyTag(i) != "PREC"
    ensures StabilityTag(i) != "ANOM" && StabilityTag(i) != "PREC"
  {
    if AccuracyTag(i) == AccuracyTag(j) {
      assert NatToString(i) == AccuracyTag(i)[2..];
      NatToStringInjective(i, j);
    }
    if StabilityTag(i) == StabilityTag(j) {
      assert NatToString(i) == StabilityTag(i)[2..];
      NatToStringInjective(i, j);
    }
    assert AccuracyTag(i)[0] == 'A' && StabilityTag(j)[0] == 'S';
    assert AccuracyTag(i)[1] == '_' && StabilityTag(i)[1] == '_';
  }

  // ---------------------------------------------------------------------------
  // Report types

  /** The file-name suffix of a report type's output. */
  function Suffix(t: ReportType): (r: string)
    ensures EndsWith(r, ".xlsx") && '/' !in r && |r| > 0
  {
    match t
    case ACC => "_ACC.xlsx"
    case ANOM => "_ANOM.xlsx"
    case PREC => "_PREC.xlsx"
    case STAB => "_STAB.xlsx"
  }

  /**
   * The word naming a report type in collected file names (the third word of
   * the log message, or the message itself). The stability label carries the
   * two characters U+221A U+2020 where an accented `a` was meant.
   */
  function Label(t: ReportType): string {
    match t
    case ACC => "Accuracy"
    case ANOM => "Anomalie"
    case PREC => "Precision"
    case STAB => "Stabilit\U{221A}\U{2020}"
  }

  lemma SuffixInjective(s: ReportType, t: ReportType)
    ensures Suffix(s) == Suffix(t) <==> s == t
  {
    if s != t {
      assert Suffix(s)[1] != Suffix(t)[1] || Suffix(s)[2] != Suffix(t)[2];
    }
  }

  // ---------------------------------------------------------------------------
  // The population flag and collected names

  /** The token after the first occurrence of `code` is `"1"`. */
  predicate InPopulation(parts: seq<string>, code: string) {
    exists i :: 0 <= i < |parts| - 1 && parts[i] == code && code !in parts[..i] && parts[i + 1] == "1"
  }

  /**
   * `IN` when, splitting the model name on `_`, the token following the first
   * occurrence of the country code is `"1"`; `OUT` otherwise, including when
   * the code is absent or is the last token.
   */
  function PopulationFlag(modelName: string, code: string): (r: string)
    ensures r == "IN" || r == "OUT"
    ensures r == "IN" <==> InPopulation(Split(modelName, '_'), code)
  {
    var parts := Split(modelName, '_');
    match IndexOf(parts, code)
    case None => "OUT"
    case Some(i) =>
      assert forall j :: 0 <= j < |parts| && parts[j] == code && code !in parts[..j] ==> j == i by {
        forall j | 0 <= j < |parts| && parts[j] == code && code !in parts[..j]
          ensures j == i
        {
          IndexOfIs(parts, code, j);
        }
      }
      if i + 1 < |parts| && parts[i + 1] == "1" then "IN" else "OUT"
  }

  /** The part shared by a collected report and its batch file. */
  function CollectedStem(t: ReportType, code: string, segment: string, flag: string, date: string): string {
    Label(t) + "_" + code + "_CE_" + segment + "_" + flag + "_" + date
  }

  /** `report_<label>_<cc>_CE_<seg>_<IN|OUT>_<date>.xlsx`. */
  function ReportName(t: ReportType, code: string, segment: string, flag: string, date: string): (r: string)
    ensures StartsWith(r, "report_") && EndsWith(r, ".xlsx") && |r| >= 12
    ensures r[7..|r| - 5] == CollectedStem(t, code, segment, flag, date)
  {
    "report_" + CollectedStem(t, code, segment, flag, date) + ".xlsx"
  }

  /** `<label>_<cc>_CE_<seg>_<IN|OUT>_<date>.csv`. */
  function BatchName(t: ReportType, code: string, segment: string, flag: string, date: string): (r: string)
    ensures EndsWith(r, ".csv")
    ensures r[..|r| - 4] == CollectedStem(t, code, segment, flag, date)
  {
    CollectedStem(t, code, segment, flag, date) + ".csv"
  }

  /** Collected names are plain file names when their parts contain no separator. */
  lemma CollectedNamesFlat(t: ReportType, code: string, segment: string, flag: string, date: string)
    requires '/' !in code && '/' !in segment && '/' !in flag && '/' !in date
    ensures '/' !in ReportName(t, code, segment, flag, date)
    ensures '/' !in BatchName(t, code, segment, flag, date)
  {
    assert '/' !in Label(t);
    var stem := CollectedStem(t, code, segment, flag, date);
    assert '/' !in stem;
    assert ReportName(t, code, segment, flag, date) == "report_" + stem + ".xlsx";
  }

  // ---------------------------------------------------------------------------
  // Runs cut short by an exception

  /** The evaluator call at position `raiseAt` of `events` raises. */
  predicate RaisesWithin(events: seq<Event>, raiseAt: Option<nat>) {
    raiseAt.Some? && raiseAt.value < |events| && events[raiseAt.value].Eval?
  }

  /**
   * What actually happens when `plan` is attempted: everything up to and
   * including the evaluator call that raises, or all of it.
   */
  function Executed(plan: seq<Event>, raiseAt: Option<nat>): (r: seq<Event>)
    ensures r <= plan
    ensures RaisesWithin(plan, raiseAt) <==> RaisesWithin(r, raiseAt)
    ensures RaisesWithin(plan, raiseAt) ==> |r| == raiseAt.value + 1
    ensures !RaisesWithin(plan, raiseAt) ==> r == plan
  {
    if RaisesWithin(plan, raiseAt) then plan[..raiseAt.value + 1] else plan
  }

  /** A run that raises at the call right after `pre` stops there. */
  lemma ExecutedStopsAt(plan: seq<Event>, pre: seq<Event>, c: Call, raiseAt: Option<nat>)
    requires pre + [Eval(c)] <= plan
    requires raiseAt == Some(|pre|)
    ensures Executed(plan, raiseAt) == pre + [Eval(c)]
  {
    assert plan[|pre|] == Eval(c);
    assert plan[..|pre| + 1] == pre + [Eval(c)];
  }

  /** The events of one stage: `block(i, f)` for the i-th file `f`, counting from `first`. */
  function Blocks(files: seq<string>, first: nat, block: (nat, string) -> seq<Event>): seq<Event>
    decreases |files|
  {
    if |files| == 0 then [] else block(first, files[0]) + Blocks(files[1..], first + 1, block)
  }

  lemma {:induction false} BlocksSplit(files: seq<string>, first: nat, block: (nat, string) -> seq<Event>, i: nat)
    requires i < |files|
    ensures Blocks(files, first, block)
            == Blocks(files[..i], first, block) + block(first + i, files[i]) + Blocks(files[i + 1..], first + i + 1, block)
    decreases i
  {
    if i > 0 {
      BlocksSplit(files[1..], first + 1, block, i - 1);
      assert files[1..][..i - 1] == files[1..i];
      assert files[1..][i - 1] == files[i];
      assert files[1..][i..] == files[i + 1..];
      assert files[..i] == [files[0]] + files[1..i];
      assert Blocks(files[..i], first, block) == block(first, files[0]) + Blocks(files[1..i], first + 1, block);
    } else {
      assert files[..0] == [];
    }
  }

  lemma BlocksAll(files: seq<string>, first: nat, block: (nat, string) -> seq<Event>)
    ensures Blocks(files[..|files|], first, block) == Blocks(files, first, block)
  {
    assert files[..|files|] == files;
  }

  /** Adding the next file's block to the events of a stage. */
  lemma BlocksStep(files: seq<string>, first: nat, block: (nat, string) -> seq<Event>, i: nat)
    requires i < |files|
    ensures Blocks(files[..i + 1], first, block) == Blocks(files[..i], first, block) + block(first + i, files[i])
  {
    BlocksSplit(files[..i + 1], first, block, i);
    assert files[..i + 1][..i] == files[..i];
    assert files[..i + 1][i + 1..] == [];
  }

  /** A stage whose every block has `n` events has `n` events per file. */
  lemma {:induction false} BlocksLength(files: seq<string>, first: nat, block: (nat, string) -> seq<Event>, n: nat)
    requires forall i: nat, f: string :: |block(i, f)| == n
    ensures |Blocks(files, first, block)| == n * |files|
    decreases |files|
  {
    if |files| > 0 {
      BlocksLength(files[1..], first + 1, block, n);
    }
  }

  /** The files written by a call, applied in order. */
  function PutAll(fs: Store, entries: seq<(string, string)>): (r: Store)
    requires fs.Valid()
    ensures r.Valid()
    ensures forall k :: k in fs.data ==> k in r.data
    ensures forall e :: e in entries ==> e.0 in r.data
    decreases |entries|
  {
    if |entries| == 0 then fs
    else
      var r := PutAll(Put(fs, entries[0].0, entries[0].1), entries[1..]);
      assert forall e :: e in entries ==> e.0 in r.data by {
        forall e | e in entries
          ensures e.0 in r.data
        {
          if e != entries[0] {
            assert e in entries[1..];
          }
        }
      }
      r
  }
}
