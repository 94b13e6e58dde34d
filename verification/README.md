# Model workflow tracker: test orchestration and tracker state

This project models the core of a tool that tracks machine-learning
categorisation models through their validation workflow. The model has two
halves.

**The test-orchestration backend** drives an external evaluator (the
categorisation engine's `TestRunner`, or the Tagger `TestRunner`) over a
folder of samples and models. The evaluator computes accuracy, anomalies,
precision and stability reports. Four entry points are modelled:

- The serverless handler (`lambda/handler.py`) downloads a segment's inputs
  from the bucket, runs the stages and collects the outputs after each
  call. It then uploads the output folder.
- The REST backend (`docker/python-backend/main.py`) serves directory
  listings and runs the same stages on a shared folder.
- The CE API server (`docker/ce_python/api_server.py`) finds the newest
  date folder of a segment. It runs the tests as background runs with a
  status and a progress percentage. It wraps the evaluator's constructors
  so that they parse Windows paths.
- The headless dashboard (`dashboard.py`) treats a folder of JSON configs as
  a queue. A marker file `X.done` retires the config `X.json`.

These share the object-store helper (`docker/ce_python/s3_helper.py`).

**The tracker front end** keeps countries, projects and releases. Each
project or release model goes through workflow rounds of six steps. The
state is kept in one of two ways:

- In local mode, the front end talks to a JSON-file HTTP server
  (`docker/backend/server.js`) through a client shaped like the hosted
  database client (`src/integrations/local/client.ts`).
- Otherwise, it uses rows of database tables.

Workbook reports are read back by `src/lib/reportParser.ts`.

**How things are modelled.**

- A file tree or bucket is a `Storage.Store`: keys in creation order, each
  with a content.
- The evaluator is a parameter. It records which call raises, if any, and
  which files each call writes.
- A run is a sequence of `Pipeline.Event`s. `Pipeline.Executed` cuts the
  sequence after the call that raises.
- Pure code becomes functions with lemmas.
- Loops become methods with invariants, proved against those functions.
- Objects updated in place are classes: the API server's run registry, the
  JSON server, the client's query builders and the React hooks. The hooks'
  page state and stored tables are fields that their methods reassign.
- Clocks, generated ids, the `now` of a request and which writes fail are
  all parameters.

## Model

| member | source | states |
|---|---|---|
| Pipeline.TagsDistinct | lambda/handler.py:304-371 | Two accuracy tags, or two stability tags, are equal exactly when their positions are; an accuracy tag never equals a stability tag, and neither is ever `ANOM` or `PREC` |
| Pipeline.Suffix | lambda/handler.py:83-89 | The output suffix of a report type is non-empty, ends in `.xlsx` and holds no `/` |
| Pipeline.SuffixInjective | lambda/handler.py:83-89 | Different report types have different suffixes |
| Pipeline.PopulationFlag | lambda/handler.py:91-98 | `IN` exactly when the token after the first occurrence of the country code in the `_`-split model name is `"1"`; `OUT` otherwise, including when the code is missing or is the last token |
| Pipeline.ReportName | lambda/handler.py:106 | The collected report name starts with `report_`, ends in `.xlsx`, and between them is the stem `<label>_<cc>_CE_<seg>_<IN/OUT>_<date>` shared with the batch name |
| Pipeline.BatchName | lambda/handler.py:125 | The collected batch name ends in `.csv`, and without that extension it is the stem shared with the report name |
| Pipeline.CollectedNamesFlat | lambda/handler.py:106 | Collected names are plain file names when their parts have no separator |
| Pipeline.Executed | lambda/handler.py:301-374 | A run attempted on an evaluator that raises at call k performs everything up to and including call k, and nothing after it |
| Pipeline.ExecutedStopsAt | lambda/handler.py:301-374 | A run that raises at the call right after a prefix stops exactly there |
| Collect.ReportSourceDepth | lambda/handler.py:101-104 | The walk's `root != output_folder` test: a file directly in the output folder is never a report source |
| Collect.ReportSourceShape | lambda/handler.py:101-104 | A report source is a key below a strict subfolder of the output folder whose name ends in the suffix |
| Collect.CopiedReports | lambda/handler.py:101-112 | The reports copied are the sources in walk order whose copy does not fail |
| Collect.ReportsCollected | lambda/handler.py:101-112 | With no report copied the store is unchanged; otherwise the last copied source is a report of this type and only the collected name changes, to that source's content |
| Collect.CopyEach | docker/python-backend/main.py:168-180 | The copy loop: every wanted file is copied to `out/name`, later ones overwriting earlier ones; one reported name per successful copy |
| Collect.CopyReports | docker/python-backend/main.py:168-180 | Walks the output folder and copies each report of the type found in a subfolder; a failing copy is skipped |
| Collect.Latest | lambda/handler.py:124 | `max(files, key=getmtime)`: a member with the greatest time, the first such in glob order |
| Collect.GlobEndingMembers | lambda/handler.py:120-121 | The glob yields exactly the visible entries of the batch folder ending in the pattern's tail |
| Collect.BatchCollected | lambda/handler.py:115-131 | When the batch copy happens, the batch name exists afterwards and every other key keeps its membership and content |
| Collect.BatchCollectedNewest | lambda/handler.py:115-131 | A batch copy that happens copies a newest matching regular file |
| Collect.CollectedInto | docker/python-backend/main.py:140-199 | A collection changes at most the two target names; every other key keeps its membership and content |
| Collect.Collected | lambda/handler.py:76-131 | Only the report name and the batch name of the type can change; every other key keeps its membership and content |
| Collect.CollectedIntoNames | docker/python-backend/main.py:140-199 | Every name reported as copied is the report name or the batch name, and at most one more than the reports copied |
| Collect.CollectedNamesShape | docker/python-backend/main.py:140-199 | Every reported name is a collected name of the type, never a source name |
| Collect.CopyLatestOutputs | lambda/handler.py:76-131 | `copy_latest_outputs`: reports of the type, then the newest batch file, to their collected names; the store and names are those of `Collected` |
| Collect.CopyInto | docker/python-backend/main.py:140-199 | The backend's identical `copy_latest_outputs` once the target names are fixed |
| Collect.CopyBatch | docker/python-backend/main.py:182-194 | The newest matching batch file copied to the batch name unless the copy fails |
| Stages.StageCall | lambda/handler.py:304-371 | The stability stage calls the distribution and every other stage the scores, always on the sample path joined with the file name |
| Stages.StageTagsDistinct | lambda/handler.py:304-371 | In the accuracy and stability stages, two samples whose evaluator calls are equal sit at the same position |
| Stages.StoppedExecuted | lambda/handler.py:304-371 | A run stopped inside a prefix of the plan is what executing the whole plan gives |
| Stages.RunStage | lambda/handler.py:304-319 | A stage: for each sample, the call then the collection; stops at the first call that raises; the events are the stage's executed prefix |
| Stages.PerformNext | lambda/handler.py:304-371 | The next call of a plan extends the run by one, or stops it at this call |
| Stages.ExpertPath | docker/python-backend/main.py:305-320 | No path unless a non-empty name is given; under `expertrules/<side>` with the old/new layout, directly under `expertrules` otherwise |
| Stages.RunnerPlanLength | lambda/handler.py:287-374 | A test-runner run has two opening calls, two events per sample and the final save |
| Stages.RunRunnerStage | lambda/handler.py:304-371 | The n-th stage after the ones before it, with the run so far a prefix of the whole plan |
| Stages.RunTestRunner | lambda/handler.py:287-374 | Runner, cross-validation, four stages and the final reports, stopping at the first raise; the events equal `Executed` of the plan |
| LambdaHandler.Segment | lambda/handler.py:168 | The capitalised segment has the same length and equals the segment ignoring case |
| LambdaHandler.DataRoot | lambda/handler.py:186 | `<country>/<segment lower-cased>` unless the payload names a data root |
| LambdaHandler.ExpertPathsIndependent | lambda/handler.py:210-224 | The old and new rule paths are resolved independently; a missing new name does not fall back to the old one |
| LambdaHandler.CapitalizeFlat | lambda/handler.py:168 | Capitalising keeps a name free of separators |
| LambdaHandler.Downloaded | lambda/handler.py:39-51 | Stays a well-formed store; what lands where is stated by `DownloadedContents` |
| LambdaHandler.LocalPathInjective | lambda/handler.py:48 | Different keys below the prefix land on different local paths |
| LambdaHandler.DownloadedContents | lambda/handler.py:39-51 | Every downloadable key's content ends up at its local path |
| LambdaHandler.DownloadKeys | lambda/handler.py:43-51 | The download loop equals `Downloaded` |
| LambdaHandler.DownloadedPrefix | lambda/handler.py:39-51 | Stays a well-formed store; the round trip is stated by `DownloadUploadRoundTrip` |
| LambdaHandler.S3DownloadPrefix | lambda/handler.py:39-51 | `s3_download_prefix`: every listed key, in listing order |
| LambdaHandler.Uploaded | lambda/handler.py:54-62 | Stays a well-formed store; what lands where is stated by `UploadedContents` |
| LambdaHandler.UploadedContents | lambda/handler.py:54-62 | Every uploaded file's content ends up under the prefix plus its relative path with `\` made `/` |
| LambdaHandler.UploadFiles | lambda/handler.py:56-62 | The upload loop equals `Uploaded` |
| LambdaHandler.UploadedDir | lambda/handler.py:54-62 | Stays a well-formed store; what lands where is stated by `UploadRestores` |
| LambdaHandler.S3UploadDir | lambda/handler.py:54-62 | `s3_upload_dir`: every file below the directory, in walk order |
| LambdaHandler.UploadInvertsDownload | lambda/handler.py:45-60 | Uploading a downloaded file from the same directory to the same prefix gives back its key |
| LambdaHandler.LocalPathShape | lambda/handler.py:45-48 | A downloadable key's local path lies directly below the directory and carries the key's remainder |
| LambdaHandler.WalkedFile | lambda/handler.py:56-58 | A file below the directory is among those walked for upload |
| LambdaHandler.UploadRestores | lambda/handler.py:54-62 | Uploading a directory puts a file found at a key's local path back under that key |
| LambdaHandler.DownloadUploadRoundTrip | lambda/handler.py:39-62 | Download then upload between the same prefix and directory restores every downloaded object, for remainders without backslash or leading separator |
| LambdaHandler.TaggerPlanShape | lambda/handler.py:268-286 | The tagger run makes two evaluator calls with a distribution sample and one without, none of them saving reports |
| LambdaHandler.RunTagger | lambda/handler.py:268-286 | The events are the tagger plan up to the first raise, the store is their replay, and it succeeds exactly when nothing raised |
| LambdaHandler.Prepared | lambda/handler.py:189-228 | The prepared store is well formed and holds the output folder |
| LambdaHandler.Handler | lambda/handler.py:158-393 | `handler`: prepare, run the tagger or the test runner, upload the output folder, clean up; a raise propagates as a failure with nothing uploaded |
| RestBackend.SafeListDir | docker/python-backend/main.py:133-138 | Sorted; a name is in it exactly when the path is a directory holding that entry |
| RestBackend.Ending | docker/python-backend/main.py:256-257 | The names ending with the suffix, in order |
| RestBackend.SegmentsInFixedOrder | docker/python-backend/main.py:218-222 | A country's segments are those of the fixed list that exist, in the fixed order |
| RestBackend.CountriesComplete | docker/python-backend/main.py:211-226 | Every country folder holding at least one known segment is reported with those segments |
| RestBackend.CountrySegments | docker/python-backend/main.py:218-222 | The segment loop equals `SegmentsOf` |
| RestBackend.CountriesFrom | docker/python-backend/main.py:214-225 | The country loop equals `CountriesOf` |
| RestBackend.GetCountries | docker/python-backend/main.py:211-226 | `get_countries`: the country folders of the root holding a known segment |
| RestBackend.GetModelFiles | docker/python-backend/main.py:227-263 | 404 exactly when the segment folder is missing; otherwise `prod` and `develop` list exactly the `.zip` entries of those folders, ascending, and the expert rules exactly those of `old`/`new` when both exist and of the flat folder, for both sides, otherwise |
| RestBackend.GetTaggerFiles | docker/python-backend/main.py:264-280 | 404 exactly when the Tagger folder is missing; otherwise exactly the `.zip` entries of `model`, the `list_companies.xlsx` entries and the `.tsv.gz` entries of `sample`, each ascending |
| RestBackend.GetSampleFiles | docker/python-backend/main.py:281-289 | The sorted `.tsv.gz` samples; none when the folder is missing |
| RestBackend.Rejection | docker/python-backend/main.py:291-334 | 503 without the evaluator; then 400 for a missing old model, new model or empty input set, in that order |
| RestBackend.UnavailableFirst | docker/python-backend/main.py:293-294 | Without the evaluator every request is refused with 503, whatever its models |
| RestBackend.RunTests | docker/python-backend/main.py:290-453 | A refused request writes nothing; otherwise the output folder is created and the run's events are the executed plan; success exactly when nothing raised; the report path is given exactly when it exists after a success; a failure carries the error text |
| RestBackend.TaggerPlan | docker/python-backend/main.py:480-516 | The tagger run makes four evaluator calls: construct, cross-validate, the distribution with the company list, save the reports |
| RestBackend.TaggerRejection | docker/python-backend/main.py:455-473 | 503 without the evaluator; then 400 for the old, then the new model |
| RestBackend.RunFourCalls | docker/python-backend/main.py:480-516 | Four calls in a row, stopping at the first that raises |
| RestBackend.RunTaggerTests | docker/python-backend/main.py:454-527 | A refused request writes nothing; otherwise the output folder is created and the events are the four calls cut at a raise; success exactly when nothing raised; the report path is given exactly when it exists after a success; a failure carries the error text |
| Dashboard.ExpertPaths | dashboard.py:87-97 | Both rule paths set exactly when an old name is given; the new name defaults to the old one |
| Dashboard.FirstMissing | dashboard.py:80-83 | The first check whose path does not exist |
| Dashboard.PrecheckOrder | dashboard.py:67-111 | A run goes ahead exactly when the base folder and both models exist; a missing base folder is reported first |
| Dashboard.AllPresentStage | dashboard.py:148-166 | A stage whose listed samples are all present makes one call per file, tagged by position |
| Dashboard.SkipKeepsPositions | dashboard.py:148-156 | A missing sample is skipped without renumbering the later ones |
| Dashboard.SkippedSampleNoCall | dashboard.py:150-154 | A skipped sample contributes no call |
| Dashboard.RunnerCallsShape | dashboard.py:127-227 | A test-runner run starts with the runner and cross-validation and ends with the reports |
| Dashboard.TaggerCallsShape | dashboard.py:228-260 | A Tagger run builds, cross-validates, runs the distribution exactly when it is named and present, then saves |
| Dashboard.RunPresentStage | dashboard.py:148-166 | The stage loop: each listed sample's call, or nothing when its file is missing; stops at a raise |
| Dashboard.RunConfigStage | dashboard.py:148-225 | The n-th stage after those before it |
| Dashboard.RunRunnerCalls | dashboard.py:127-227 | The test-runner calls of a config, stopping at the first raise |
| Dashboard.RunTaggerCalls | dashboard.py:228-260 | The Tagger calls of a config, stopping at the first raise |
| Dashboard.AttemptTagger | dashboard.py:228-260 | The Tagger calls once built |
| Dashboard.ConfigRun | dashboard.py:48-267 | No stored file is removed or changed, and the run finishes or fails exactly when the config passes its prechecks |
| Dashboard.ExceptionsCaught | dashboard.py:262-267 | A run that passes the prechecks ends as failed exactly when a call raised; its calls are a prefix of the config's calls and the output folder exists |
| Dashboard.RunFromConfig | dashboard.py:48-267 | `run_from_config` equals `ConfigRun` |
| Dashboard.ListDirOfMissing | dashboard.py:270-271 | Nothing is listed in a missing folder |
| Dashboard.PendingNames | dashboard.py:268-278 | The `.json` names that are not `.done.json` and have no marker, in listing order; none for a missing folder |
| Dashboard.CollectPending | dashboard.py:273-277 | The scan loop keeps, in order, the paths of the pending configs |
| Dashboard.FindPendingConfigs | dashboard.py:268-278 | `find_pending_configs` equals the paths of `PendingNames` |
| Dashboard.DonePathOfConfig | dashboard.py:274-276 | The intended marker of a listed config is its name's marker in the same folder, the file the scan looks for |
| Dashboard.MarkedNotPending | dashboard.py:268-285 | Once its intended marker is written, a config is no longer pending, however much else is added |
| Dashboard.MarkConfigDone | dashboard.py:281-285 | Writes `done` at the path with `.json` replaced throughout, exactly when that path's folder exists; otherwise `open` raises and nothing is written |
| Dashboard.AsWrittenMarker | dashboard.py:283 | The as-written marker replaces `.json` in the folder path too, and equals the intended marker exactly when the folder path holds no `.json` (both directions) |
| Dashboard.ListedMarkerWritable | dashboard.py:273-285 | In a folder whose path holds no `.json`, the marker of a listed config can be written |
| Dashboard.MarkedAsWrittenNotPending | dashboard.py:268-285 | In a folder whose path holds no `.json`, writing the as-written marker takes the config off the queue |
| Dashboard.AsWrittenMarkerRaises | dashboard.py:281-285 | Config `a.json` in `/q.json` with no `/q.done` folder: it is pending and marking it raises |
| Dashboard.AsWrittenMarkerMissesConfig | dashboard.py:281-285 | Config `a.json` in `/q.json` beside a `/q.done` folder: the marker can be written, and the config is still pending after it is |
| Dashboard.Process | dashboard.py:307-312 | Running one config records its path; a marker reported written is in the store; whenever the marker's folder exists it is written; no stored path disappears |
| Dashboard.ProcessConfig | dashboard.py:307-312 | Load, run, then mark one config: equals `Process` |
| Dashboard.DrainConfigs | dashboard.py:306-313 | The configs of one scan are processed in order, each starting from the store the previous one left; every run but possibly the last is marked, and the drain stops early only after a marking that raised |
| Dashboard.DrainCompletes | dashboard.py:304-313 | In a folder whose path holds no `.json`, draining a scan runs and marks every pending config, and none of them is pending afterwards |
| Dashboard.Watch | dashboard.py:301-317 | Watch mode: a store with something pending is drained as it is; otherwise the first scan that finds something; in a folder whose path holds no `.json`, every config pending at that scan is run, marked and off the queue |
| Dashboard.Once | dashboard.py:318-331 | Default mode: an empty queue changes nothing; otherwise exactly one run, of the first pending config, which is then marked and off the queue when the folder path holds no `.json` |
| Dashboard.OnceMarks | dashboard.py:320-327 | Processing the first pending config marks it and takes it off the queue, in a folder whose path holds no `.json` |
| Dashboard.Drive | dashboard.py:289-331 | A named config is run once and never marked; otherwise the outcome of watch mode or of the default single pass, as `Watch` and `Once` state them |
| ApiServer.Fix | docker/ce_python/api_server.py:38-39 | `_fix`: every backslash of a string becomes a slash; other values pass unchanged |
| ApiServer.FixIdempotent | docker/ce_python/api_server.py:38-39 | Fixing twice is fixing once |
| ApiServer.ToBackslash | docker/ce_python/api_server.py:34-36 | An absent path stays absent; a present one keeps its length and holds no `/` |
| ApiServer.FixUndoesBackslash | docker/ce_python/api_server.py:34-39 | The fix undoes the conversion for a path written with slashes only |
| ApiServer.Invoke | docker/ce_python/api_server.py:50-57 | Calling a binding runs the real function at the bottom of the chain, on the path itself when unwrapped and on the fixed path behind any number of wrappers |
| ApiServer.RewrappingHarmless | docker/ce_python/api_server.py:50-57 | Wrapping a binding that already fixes paths changes nothing |
| ApiServer.Metric.OriginalInit | docker/ce_python/api_server.py:61 | The library constructor keeps the paths it is given, or raises |
| ApiServer.Metric.PatchedInit | docker/ce_python/api_server.py:33-72 | The constructor runs on backslash paths while the I/O bindings are wrapped; afterwards the bindings are restored, whether it raised or not |
| ApiServer.FindSegmentFolder | docker/ce_python/api_server.py:210-217 | The first entry equal to the segment ignoring case, or none |
| ApiServer.ShownAs | docker/ce_python/api_server.py:198-206 | A segment folder is shown under the canonical name equal to it ignoring case |
| ApiServer.ListSegments | docker/ce_python/api_server.py:188-209 | 404 for a missing country; 500 when the country path is a file, since `os.listdir` raises; otherwise one canonical name per folder named consumer, business or tagger ignoring case, in listing order |
| ApiServer.LatestDateFolder | docker/ce_python/api_server.py:218-241 | The greatest date-folder name among the segment's entries, none without one |
| ApiServer.FindLatestDateFolder | docker/ce_python/api_server.py:218-241 | The collecting loop then the maximum equals `LatestDateFolder` |
| ApiServer.SortedListing | docker/ce_python/api_server.py:318-350 | Ascending, and a name is in it exactly when it is an entry of the folder that is kept |
| ApiServer.ListingIfFolder | docker/ce_python/api_server.py:318-350 | Ascending, and a name is in it exactly when the path is a folder holding that kept entry, so empty for a missing folder as the `try` leaves it |
| ApiServer.SubfolderRules | docker/ce_python/api_server.py:359-362 | The `.zip` names of an `expertrules` subfolder; none when it is missing |
| ApiServer.ExpertRuleLists | docker/ce_python/api_server.py:352-372 | The old and new lists; both the flat listing when the two subfolders give nothing |
| ApiServer.ListFiles | docker/ce_python/api_server.py:242-384 | The inputs of the latest date folder of a segment found ignoring case: the sample and company-list entries of `sample`, the `prod`/`develop` models and expert rules for consumer and business, the `model` zips for Tagger, nothing else; a missing country, segment or date folder gives the empty listing with its error; a country path that is a file gives 500, since `find_segment_folder`'s `os.listdir` raises |
| ApiServer.Queued | docker/ce_python/api_server.py:632-640 | A queued run is well formed and pending |
| ApiServer.PctBounds | docker/ce_python/api_server.py:462 | The k-th of `total` tests shows between 10 and 90, exactly 90 for the last |
| ApiServer.PctMonotone | docker/ce_python/api_server.py:462 | Later tests never show less progress |
| ApiServer.RulesInRun | docker/ce_python/api_server.py:411-429 | The subfolder path when it exists, else the flat one; none without a name |
| ApiServer.ProgressSchedule | docker/ce_python/api_server.py:446-544 | A consumer/business run shows 10, then the schedule, then 95 and 100 |
| ApiServer.ScheduleBounded | docker/ce_python/api_server.py:462 | The test progress lies in 10..90 and never decreases |
| ApiServer.ProgressNeverDecreases | docker/ce_python/api_server.py:385-556 | Whether or not a call raises, the progress shown never decreases and stays within 10..100 |
| ApiServer.TaggerProgress | docker/ce_python/api_server.py:586-616 | A Tagger run shows 10, 30, 60, 90 and 100, in order |
| ApiServer.RunRegistry.constructor | docker/ce_python/api_server.py:117 | The registry starts empty |
| ApiServer.RunRegistry.Enqueue | docker/ce_python/api_server.py:632-636 | Stores a queued record; a resubmitted id keeps its place |
| ApiServer.RunRegistry.GetStatus | docker/ce_python/api_server.py:670-686 | 404 for an unknown run, otherwise its record's fields |
| ApiServer.RunRegistry.ListRuns | docker/ce_python/api_server.py:687-705 | Every run, in submission order |
| ApiServer.RunRegistry.SubmitConsumerBusiness | docker/ce_python/api_server.py:628-648 | Queues the run and answers it as pending |
| ApiServer.RunRegistry.SubmitTagger | docker/ce_python/api_server.py:649-669 | Queues the Tagger run and answers it as pending |
| ApiServer.RunRegistry.Begin | docker/ce_python/api_server.py:388 | The run becomes running |
| ApiServer.RunRegistry.Report | docker/ce_python/api_server.py:461-462 | Sets the message and progress of a run |
| ApiServer.RunRegistry.Fail | docker/ce_python/api_server.py:551-554 | The `except` branch: failed, with the error, progress kept |
| ApiServer.RunRegistry.Complete | docker/ce_python/api_server.py:542-549 | Completed at 100 with the result |
| ApiServer.RunRegistry.RunTestStage | docker/ce_python/api_server.py:457-475 | For each sample: count it, show its progress, call; stops at a raise |
| ApiServer.RunRegistry.RunConsumerBusinessTests | docker/ce_python/api_server.py:385-556 | The events are the executed plan; the run ends completed exactly when nothing raised and no folder was missing, failed otherwise |
| ApiServer.RunRegistry.RunTaggerTests | docker/ce_python/api_server.py:557-627 | The Tagger plan executed; completed exactly when nothing raised |
| ApiServer.RunRegistry.StartRunner | docker/ce_python/api_server.py:433-452 | The runner, progress 10 and cross-validation, as the head of the plan |
| ApiServer.RunRegistry.RunStages | docker/ce_python/api_server.py:456-535 | The four test loops in order |
| ApiServer.RunRegistry.RunUntilReports | docker/ce_python/api_server.py:433-540 | From the runner to the reports, as a prefix of the plan |
| S3Helper.SettingsFrom | docker/ce_python/s3_helper.py:15-17 | Prefix `TEST_SUITE/` and cache `/data/TEST_SUITE` unless the environment says otherwise |
| S3Helper.RStrip | docker/ce_python/s3_helper.py:44 | `rstrip("/")`: the string without its trailing run of `/` |
| S3Helper.CommonPrefixesUnder | docker/ce_python/s3_helper.py:34-47 | Every common prefix lies under the listed prefix |
| S3Helper.ChildFolders | docker/ce_python/s3_helper.py:34-47 | Sorted ascending; which names it holds is stated by `ChildFolderMembers` |
| S3Helper.ChildFolderMembers | docker/ce_python/s3_helper.py:34-47 | Exactly the non-empty, `/`-free names with some key below `prefix + n + "/"` |
| S3Helper.ListCommonPrefixes | docker/ce_python/s3_helper.py:34-47 | The page loop, then the sort, equals `ChildFolders` |
| S3Helper.Countries | docker/ce_python/s3_helper.py:63-67 | The country folders come sorted ascending |
| S3Helper.Segments | docker/ce_python/s3_helper.py:68-73 | The segment folders come sorted ascending |
| S3Helper.DirectFiles | docker/ce_python/s3_helper.py:48-62 | Sorted ascending; which names it holds is stated by `DirectFileMembers` |
| S3Helper.DirectFileMembers | docker/ce_python/s3_helper.py:48-62 | Exactly the non-empty, `/`-free names `n` with a key `prefix + n` passing the filter |
| S3Helper.ListFiles | docker/ce_python/s3_helper.py:48-62 | The page loop, then the sort, equals `DirectFiles` |
| S3Helper.FindLatestDateFolder | docker/ce_python/s3_helper.py:74-92 | The greatest date folder that holds a `model/` key, none without one |
| S3Helper.LatestDateFolderCorrect | docker/ce_python/s3_helper.py:74-92 | The answer is a folder with a model key and no such folder is greater; none exactly when no folder has models |
| S3Helper.FilesForSegment | docker/ce_python/s3_helper.py:93-138 | The listing names the requested date and segment; samples and company lists are the matching files directly under `sample/`, in key order; consumer and business list the `prod/` and `develop/` zips and the expert rules, Tagger the zips directly under `model/`, other segments no models |
| S3Helper.ExpertRulesPolicy | docker/ce_python/s3_helper.py:120-131 | When neither `old/` nor `new/` holds a zip, both lists are the flat listing; otherwise each is its own folder's |
| S3Helper.SegmentKinds | docker/ce_python/s3_helper.py:117-134 | Only Consumer/Business list prod, develop and expert files; only Tagger lists tagger models |
| S3Helper.DownloadFile | docker/ce_python/s3_helper.py:139-148 | Stays a well-formed store; its effect is stated by `DownloadFileEffect` |
| S3Helper.DownloadFileEffect | docker/ce_python/s3_helper.py:139-148 | Afterwards the path exists and no file already present changed |
| S3Helper.DownloadFileCached | docker/ce_python/s3_helper.py:145-146 | A repeated download changes nothing |
| S3Helper.DownloadFilePreservesExists | docker/ce_python/s3_helper.py:139-148 | The cache only grows |
| S3Helper.DownloadedKeys | docker/ce_python/s3_helper.py:149-160 | Every file already present keeps its content |
| S3Helper.DownloadedKeysPresent | docker/ce_python/s3_helper.py:149-160 | Every listed key other than the prefix is present locally afterwards |
| S3Helper.DownloadPrefix | docker/ce_python/s3_helper.py:149-160 | The loop equals `DownloadedKeys` of the listing |
| S3Helper.DownloadPrefixComplete | docker/ce_python/s3_helper.py:149-160 | Every key below the prefix has its local path, and cached files are untouched |
| S3Helper.DownloadTestData | docker/ce_python/s3_helper.py:163-183 | The `sample/` and `model/` folders, then an empty `output/`; returns the local folder |
| S3Helper.UploadOutputs | docker/ce_python/s3_helper.py:186-197 | The bucket is that of uploading the local output folder to `<prefix><country>/<segment>/<date>/output/` |
| S3Helper.UploadOutputsPlacesFiles | docker/ce_python/s3_helper.py:186-197 | Each output keeps its content under `<prefix><country>/<segment>/<date>/output/<relative path>` |
| Tracker.FindRound | src/hooks/useProjectsLocal.ts:142 | `findIndex`: the first round with the number; none exactly when no round has it |
| Tracker.FindRoundFirst | src/hooks/useProjectsLocal.ts:142 | A position holding the number with no earlier one is the answer |
| Tracker.SteppedRounds | src/hooks/useProjectsLocal.ts:142-150 | None exactly when no round has the number; otherwise the same number of rounds |
| Tracker.SteppedRoundsEffect | src/hooks/useProjectsLocal.ts:145-150 | Exactly the first round with the number changes: it gets the step, keeps its number, and step 3 stamps its completion |
| Tracker.WorkflowStepsComplete | src/types/project.ts:32-39 | Every step has a non-empty label and no two steps share one |
| Tracker.DefaultCountriesWellFormed | src/types/project.ts:47-63 | The default countries have distinct codes and at least one segment each |
| Tracker.LabelsComplete | src/types/project.ts:65-75 | The segment and test-type label tables cover every value |
| Tracker.TestTypesForSegment | src/types/project.ts:77-82 | Two test types are offered, the full suite second |
| Tracker.TestTypesBySegment | src/types/project.ts:77-82 | Tagging exactly for Tagger, categorisation exactly for the others, the full suite always |
| Countries.AddCountry | src/hooks/useCountries.ts:24-28 | Appends the country unless its code is already present |
| Countries.AddKeepsCodesDistinct | src/hooks/useCountries.ts:24-28 | Adding keeps codes distinct |
| Countries.RemoveCountry | src/hooks/useCountries.ts:30-32 | Drops every entry with the code, keeping the others in order |
| Countries.RemoveCountryConcat | src/hooks/useCountries.ts:30-32 | Removal distributes over concatenation |
| Countries.RemoveCountryIdempotent | src/hooks/useCountries.ts:30-32 | Removing twice is removing once |
| Countries.RemoveKeepsCodesDistinct | src/hooks/useCountries.ts:30-32 | Removing keeps codes distinct |
| Countries.UpdateCountry | src/hooks/useCountries.ts:34-39 | Merges the update into entries with the code; length and other entries unchanged |
| Countries.UpdateCountryEffect | src/hooks/useCountries.ts:34-39 | An update that keeps the code keeps every code in place and sets the given fields |
| Countries.CountriesHook.Load | src/hooks/useCountries.ts:9-17 | The stored list if there is one, else the defaults, which are then stored |
| Countries.CountriesHook.Save | src/hooks/useCountries.ts:19-22 | Sets the page state and writes the same list to storage |
| Countries.CountriesHook.Add | src/hooks/useCountries.ts:24-28 | The list becomes `AddCountry` of it; storage is written only when the code was new |
| Countries.CountriesHook.Remove | src/hooks/useCountries.ts:30-32 | Saves `RemoveCountry` of the list |
| Countries.CountriesHook.Update | src/hooks/useCountries.ts:34-39 | Saves `UpdateCountry` of the list |
| Countries.FirstWithKey | src/hooks/useCountriesLocal.ts:34 | The index of the first `app_config` entry with the key; none exactly when no entry has it |
| Countries.Fetched | src/hooks/useCountriesLocal.ts:29-53 | After a fetch the table has a `countries` entry; a fetch that finds one writes nothing, otherwise the defaults are appended; the list is that entry's if it decodes, the defaults otherwise |
| Countries.FetchIdempotent | src/hooks/useCountriesLocal.ts:29-53 | Fetching twice is fetching once: the second fetch posts nothing and reads the same list |
| Countries.Saved | src/hooks/useCountriesLocal.ts:55-87 | A save either changes the value of one entry, ids and keys staying in place, or appends a `countries` entry holding the list |
| Countries.SaveThenFetch | src/hooks/useCountriesLocal.ts:29-87 | A fetch after a save reads back the saved list, whether the save patched or created the entry |
| Countries.CountriesLocalHook.Mount | src/hooks/useCountriesLocal.ts:11-27 | Local mode fetches from the backend; otherwise the stored list or the defaults |
| Countries.CountriesLocalHook.Fetch | src/hooks/useCountriesLocal.ts:29-53 | A reachable backend gives the decoded `countries` entry, posting the defaults when there is none; an unreachable one gives the defaults; local storage is untouched |
| Countries.CountriesLocalHook.Save | src/hooks/useCountriesLocal.ts:55-87 | The page state first; then the entry is patched or created in local mode, else local storage |
| Countries.CountriesLocalHook.Add | src/hooks/useCountriesLocal.ts:89-93 | The list becomes `AddCountry` of it; nothing is written when the code was present; otherwise the backend entry is saved in local mode (nothing when it cannot be reached) and local storage otherwise, the other store untouched |
| Countries.CountriesLocalHook.Remove | src/hooks/useCountriesLocal.ts:95-97 | The list becomes `RemoveCountry` of it, saved to the backend entry in local mode (nothing when it cannot be reached) or to local storage otherwise, the other store untouched |
| Countries.CountriesLocalHook.Update | src/hooks/useCountriesLocal.ts:99-104 | The list becomes `UpdateCountry` of it, saved to the backend entry in local mode (nothing when it cannot be reached) or to local storage otherwise, the other store untouched |
| JsonServer.ReadData | docker/backend/server.js:33-41 | The decoded file, or the four empty tables when it is missing or unreadable |
| JsonServer.FirstWithId | docker/backend/server.js:363 | The index of the first record with the id; none exactly when no record has it |
| JsonServer.Created | docker/backend/server.js:338-343 | The body, its id kept when truthy or else the fresh uuid, both timestamps `now` |
| JsonServer.Merged | docker/backend/server.js:368 | The keys of both; the body's fields win over the record's, and `updated_at` is `now` |
| JsonServer.RemoveAt | docker/backend/server.js:402 | `splice(i, 1)`: the records without the one at `i` |
| JsonServer.PostThenGet | docker/backend/server.js:320-352 | A record created with a fresh id is the one a GET by that id finds, at the end of its table |
| JsonServer.PostThenDelete | docker/backend/server.js:334-409 | Deleting by the id of a just-created record restores the table |
| JsonServer.PostKeepsBodyId | docker/backend/server.js:340 | A truthy body id is kept, so the record is found by it |
| JsonServer.MergeKeepsPosition | docker/backend/server.js:355-372 | An update that leaves the id alone keeps the record at its place |
| JsonServer.PasswordEntry | docker/backend/server.js:300 | The entry storing the password |
| JsonServer.Validation | docker/backend/server.js:295-305 | With no password entry the password is stored and accepted; with one, the entries are left unchanged |
| JsonServer.FirstPasswordWins | docker/backend/server.js:295-305 | The first call stores and is accepted; every later call is accepted iff its password equals the first |
| JsonServer.NodeJoin | docker/backend/server.js:85 | Joining with an empty segment gives the other segment |
| JsonServer.EntryKey | docker/backend/server.js:103 | A listed key holds no `\` |
| JsonServer.FoldersOf | docker/backend/server.js:93-95 | Exactly the folders among the entries, each with the prefix of its key plus `/` |
| JsonServer.FilesOf | docker/backend/server.js:96-106 | Exactly the files among the entries, each with its key |
| JsonServer.Server.Start | docker/backend/server.js:14-31 | A missing data file is created with the four empty tables |
| JsonServer.Server.GetTable | docker/backend/server.js:310-318 | Status 200 with the table's records, or the not-found reply for an unknown table |
| JsonServer.Server.GetItem | docker/backend/server.js:320-331 | The first record with the id, or 404 |
| JsonServer.Server.Post | docker/backend/server.js:334-352 | Appends exactly one record and answers 201 with it; a failed write leaves the file unchanged |
| JsonServer.Server.Patch | docker/backend/server.js:374-390 | Merges the body over the first record with the id and stamps it; 404 when there is none |
| JsonServer.Server.Delete | docker/backend/server.js:393-409 | Removes exactly the first record with the id; 404 when there is none |
| JsonServer.Server.ValidatePassword | docker/backend/server.js:295-305 | A 500 without an `app_config` table; otherwise `Validation` |
| JsonServer.Server.TestsuiteList | docker/backend/server.js:83-113 | An empty listing for a missing path, a 500 with the listing error's message for a file, otherwise the folders and files directly under it |
| JsonServer.Server.TestsuiteRun | docker/backend/server.js:133-160 | Rejects a request without a config or `ce_python_path`; otherwise writes the config file |
| JsonServer.RunConfigPath | docker/backend/server.js:144 | The run config path ends in `.json` |
| JsonServer.ListingShape | docker/backend/server.js:83-113 | Every key is the entry's relative path without backslash, and every folder prefix is its key plus `/` |
| LocalClient.ApplyFilters | src/integrations/local/client.ts:73-76 | Exactly the rows that match every filter |
| LocalClient.ApplyFiltersKeepsOrder | src/integrations/local/client.ts:73-76 | The successive filters keep the matching rows in the server's order |
| LocalClient.MatchesByColumn | src/integrations/local/client.ts:44-47 | With one filter per column, a row matches iff every filtered column holds exactly its value |
| LocalClient.QueryCorrect | src/integrations/local/client.ts:65-98 | A query returns exactly the matching rows, each as often as in the table; in table order without an order column, otherwise sorted ascending or descending |
| LocalClient.LookupAfterEq | src/integrations/local/client.ts:44-47 | After `eq`, the column's filter holds the new value and every other filter is in place |
| LocalClient.QueryBuilder.constructor | src/integrations/local/client.ts:36-38 | No filter, no order, not single |
| LocalClient.QueryBuilder.Eq | src/integrations/local/client.ts:44-47 | A later filter on the same column replaces the earlier one |
| LocalClient.QueryBuilder.Order | src/integrations/local/client.ts:49-53 | Records the column; ascending by default |
| LocalClient.QueryBuilder.Execute | src/integrations/local/client.ts:65-98 | A missing table is a 404; otherwise the query's rows, or when single its first row or null |
| LocalClient.QueryBuilder.Then | src/integrations/local/client.ts:60-63 | Awaiting the builder runs the query |
| LocalClient.QueryBuilder.Single | src/integrations/local/client.ts:55-58 | Marks the query single; the first row of the query, or null; a missing table is a 404 |
| LocalClient.InsertBuilder.Select | src/integrations/local/client.ts:110-129 | POSTs the records one after another; the first failure is the error; the successes are created in order |
| LocalClient.InsertBuilder.Single | src/integrations/local/client.ts:131-134 | The records of the leading successful writes are stored; the first created record when every write succeeds, `null` for an empty insert, a 500 when a write fails, a 404 for a missing table |
| LocalClient.UpdateBuilder.Eq | src/integrations/local/client.ts:147-152 | Only a filter on `id` is recorded |
| LocalClient.UpdateBuilder.Select | src/integrations/local/client.ts:154-171 | Without an id filter an error and no request; otherwise the PATCH, answered as a one-record list |
| LocalClient.UpdateBuilder.Single | src/integrations/local/client.ts:173-176 | Without an id filter an error and no request; a missing table or record is a 404 and a failed write a 500, the file unchanged; otherwise the merged record, stored in place |
| LocalClient.DeleteBuilder.Eq | src/integrations/local/client.ts:186-200 | A column other than `id` is an error with no request; otherwise the DELETE |
| LocalClient.Rpc | src/integrations/local/client.ts:227-256 | `validate_shared_password` posts the password and answers the verdict; any other name is an error without a request |
| Releases.NewModel | src/hooks/useReleasesLocal.ts:117-123 | A model just added: included, not confirmed, no workflow |
| Releases.ToggleModels | src/hooks/useReleasesLocal.ts:82-91 | Flips `included` of the models with the id |
| Releases.ToggleTwice | src/hooks/useReleasesLocal.ts:82-91 | Toggling twice restores the list |
| Releases.ConfirmModels | src/hooks/useReleasesLocal.ts:93-104 | Marks the models with the id confirmed, with the given ids and time |
| Releases.ConfirmIdempotent | src/hooks/useReleasesLocal.ts:93-104 | Confirming again with the same ids and time changes nothing |
| Releases.AddModel | src/hooks/useReleasesLocal.ts:106-127 | None exactly when the (country, segment) pair is already there; otherwise the new model appended |
| Releases.AddModelKeepsPairsUnique | src/hooks/useReleasesLocal.ts:106-127 | Adding keeps pairs unique, and the pair is present afterwards |
| Releases.RemoveModels | src/hooks/useReleasesLocal.ts:129-138 | Drops the models with the id |
| Releases.RemoveModelsConcat | src/hooks/useReleasesLocal.ts:129-138 | Removal distributes over concatenation, keeping order |
| Releases.RemoveModelsKeepsPairsUnique | src/hooks/useReleasesLocal.ts:129-138 | Removing keeps pairs unique |
| Releases.SetModelStatus | src/hooks/useReleasesLocal.ts:220-228 | Sets the status of the models with the id |
| Releases.FindModel | src/hooks/useReleasesLocal.ts:171 | The first model with the id; none exactly when there is none |
| Releases.UpdateModelStep | src/hooks/useReleasesLocal.ts:168-192 | Same length, and every model with another id is unchanged; the changed model is stated by `UpdateModelStepEffect` |
| Releases.UpdateModelStepEffect | src/hooks/useReleasesLocal.ts:168-192 | Only the current round of the model changes; other models are untouched |
| Releases.StartModelNewRound | src/hooks/useReleasesLocal.ts:194-218 | None exactly when the model is missing; otherwise same length with every other model unchanged; the new round is stated by `NewRoundThenStep` |
| Releases.NewRoundThenStep | src/hooks/useReleasesLocal.ts:168-218 | A new round keeps the earlier rounds, numbers itself one past the current one, and is the round the next step update moves |
| Releases.FindModelFirst | src/hooks/useReleasesLocal.ts:171 | A position holding the id with no earlier one is the answer |
| Releases.ApplyPatch | docker/backend/server.js:364-368 | Each field the patch carries replaces the stored one; id, version and creation time are kept |
| Releases.Patched | src/hooks/useReleasesLocal.ts:36-48 | The table after a PATCH; a missing release changes nothing |
| Releases.CompleteTouchesOnlyCompleted | src/hooks/useReleasesLocal.ts:152-158 | Completing leaves every other release and field unchanged |
| Releases.NewRelease | src/hooks/useReleasesLocal.ts:50-80 | Every model included and unconfirmed, the release not completed |
| Releases.ReleasesLocal.Fetch | src/hooks/useReleasesLocal.ts:15-28 | On failure the page keeps what it had |
| Releases.ReleasesLocal.Save | src/hooks/useReleasesLocal.ts:36-48 | PATCH; only a successful PATCH is followed by a refetch |
| Releases.ReleasesLocal.AddRelease | src/hooks/useReleasesLocal.ts:50-80 | POSTs the new release, refetches, answers it; None when the POST fails |
| Releases.ReleasesLocal.ToggleModelInclusion | src/hooks/useReleasesLocal.ts:82-91 | Saves `ToggleModels`; a release missing from the page, an unreachable backend or a release missing from it changes nothing |
| Releases.ReleasesLocal.ConfirmModelInRelease | src/hooks/useReleasesLocal.ts:93-104 | Saves `ConfirmModels`; a release missing from the page, an unreachable backend or a release missing from it changes nothing |
| Releases.ReleasesLocal.AddModelToRelease | src/hooks/useReleasesLocal.ts:106-127 | Saves `AddModel`; no-op when the release is missing, already has the pair, the backend cannot be reached or lacks the release |
| Releases.ReleasesLocal.RemoveModelFromRelease | src/hooks/useReleasesLocal.ts:129-138 | Saves `RemoveModels`; a release missing from the page, an unreachable backend or a release missing from it changes nothing |
| Releases.ReleasesLocal.DeleteRelease | src/hooks/useReleasesLocal.ts:140-150 | Deletes the first release with the id, then refetches |
| Releases.ReleasesLocal.CompleteRelease | src/hooks/useReleasesLocal.ts:152-158 | Marks the release completed without checking the page |
| Releases.ReleasesLocal.UpdateReleaseDate | src/hooks/useReleasesLocal.ts:160-166 | Only the target date and the time stamp change |
| Releases.ReleasesLocal.UpdateModelStepOf | src/hooks/useReleasesLocal.ts:168-192 | Saves `UpdateModelStep`; no-op when the release, model or round is missing, or the save fails |
| Releases.ReleasesLocal.StartModelNewRoundOf | src/hooks/useReleasesLocal.ts:194-218 | Saves `StartModelNewRound`; no-op when the release or model is missing, or the save fails |
| Releases.ReleasesLocal.UpdateModelStatus | src/hooks/useReleasesLocal.ts:220-228 | Saves `SetModelStatus`; a release missing from the page, an unreachable backend or a release missing from it changes nothing |
| Releases.NonEmpty | src/hooks/useReleases.ts:36-43 | `x \|\| undefined`: null and the empty string become absent |
| Releases.ModelRowToReleaseModel | src/hooks/useReleases.ts:30-45 | Ids are present exactly when some id is non-empty, each kept only when non-empty; the confirmation time is the update time exactly when confirmed |
| Releases.Join | src/hooks/useReleases.ts:74-84 | One release per release row, in order, carrying the row's fields; its models are stated by `JoinGroupsModels` |
| Releases.JoinGroupsModels | src/hooks/useReleases.ts:74-84 | Each joined release holds exactly its model rows, in row order, and the releases stay in order |
| Releases.ByTargetDateOrdersReleases | src/hooks/useReleases.ts:53-56 | The fetched releases are sorted by target date and are a permutation of the rows |
| Releases.ConfirmRoundTrip | src/hooks/useReleases.ts:176-192 | Reading a confirmed row back recovers the non-empty ids, confirmed at the write time |
| Releases.NewModelRow | src/hooks/useReleases.ts:133-139 | A fresh model row: included, not confirmed, no ids |
| Releases.ReleasesHook.Fetch | src/hooks/useReleases.ts:51-88 | Releases by ascending target date, each joined with its models; a failed query keeps the page |
| Releases.ReleasesHook.AddRelease | src/hooks/useReleases.ts:113-156 | Inserts the release row, then one included, unconfirmed model row per model |
| Releases.ReleasesHook.ToggleModelInclusion | src/hooks/useReleases.ts:158-174 | Writes the negation of the page's `included` |
| Releases.ReleasesHook.ConfirmModelInRelease | src/hooks/useReleases.ts:176-192 | Writes the confirmation to the model's rows |
| Releases.ReleasesHook.AddModelToRelease | src/hooks/useReleases.ts:194-206 | Inserts the row without checking for a duplicate pair |
| Releases.ReleasesHook.RemoveModelFromRelease | src/hooks/useReleases.ts:208-214 | Deletes the rows with the id |
| Releases.ReleasesHook.DeleteRelease | src/hooks/useReleases.ts:216-222 | Deletes the release rows with the id |
| Releases.ReleasesHook.CompleteRelease | src/hooks/useReleases.ts:224-236 | Marks the release rows completed |
| Projects.DbToProject | src/hooks/useProjectsLocal.ts:26-43 | Stored rounds pass through; without them one step-1 round of the stored test type |
| Projects.ProjectToDb | src/hooks/useProjectsLocal.ts:46-58 | `projectToDb`, defined by the hook but not called by it: the stored test type is the first round's, or the full suite without rounds |
| Projects.ProjectRoundTrip | src/hooks/useProjectsLocal.ts:26-58 | Storing then reading a project gives it back |
| Projects.DbRoundTrip | src/hooks/useProjectsLocal.ts:26-58 | Reading then storing gives the document back when its test type is its first round's |
| Projects.DefaultRoundKeepsTestType | src/hooks/useProjectsLocal.ts:26-58 | A document without rounds keeps its test type through a read and a store |
| Projects.NewDBProject | src/hooks/useProjectsLocal.ts:100-136 | In progress, round 1, one step-1 round of the chosen type |
| Projects.ModelDBProject | src/hooks/useProjectsLocal.ts:230-265 | At least one round: the model's, or a fresh full-suite round; the test type is the first round's, round 0 becomes 1, and waiting means awaiting confirmation |
| Projects.ApplyPatch | docker/backend/server.js:364-368 | Each field the patch carries replaces the stored one; id, country, segment, test type and creation time are kept |
| Projects.FindProject | src/hooks/useProjectsLocal.ts:139 | The index of a project on the page with the id; none exactly when there is none |
| Projects.Patched | src/hooks/useProjectsLocal.ts:86-98 | The table after a PATCH; a missing id changes nothing |
| Projects.ReadAll | src/hooks/useProjectsLocal.ts:64-77 | Every document read, each default round with its own id |
| Projects.StepPatch | src/hooks/useProjectsLocal.ts:138-159 | None when the current round is missing; otherwise the round moved, and step 3 makes the project waiting and awaiting confirmation |
| Projects.NewRoundPatch | src/hooks/useProjectsLocal.ts:161-182 | The next round number, a step-1 round appended, in progress, not awaiting |
| Projects.NotedRounds | src/hooks/useProjectsLocal.ts:214-228 | The notes go on every round with the number |
| Projects.NewRoundThenStep | src/hooks/useProjectsLocal.ts:138-182 | A new round is the one the next step update moves, when no earlier round has its number |
| Projects.ProjectsLocal.Fetch | src/hooks/useProjectsLocal.ts:64-77 | On failure the page keeps what it had |
| Projects.ProjectsLocal.Save | src/hooks/useProjectsLocal.ts:86-98 | PATCH; only a success is followed by a refetch |
| Projects.ProjectsLocal.AddProject | src/hooks/useProjectsLocal.ts:100-136 | POSTs the document, refetches, answers the project read from it |
| Projects.ProjectsLocal.UpdateProjectStep | src/hooks/useProjectsLocal.ts:138-159 | Saves `StepPatch`; no-op when the project or round is missing, or the save fails |
| Projects.ProjectsLocal.StartNewRound | src/hooks/useProjectsLocal.ts:161-182 | Saves `NewRoundPatch`; no-op when the project is missing or the save fails |
| Projects.ProjectsLocal.ConfirmProject | src/hooks/useProjectsLocal.ts:184-192 | Completed, no longer awaiting, confirmed now |
| Projects.ProjectsLocal.UpdateProjectStatus | src/hooks/useProjectsLocal.ts:194-200 | Saves the status |
| Projects.ProjectsLocal.DeleteProject | src/hooks/useProjectsLocal.ts:202-212 | Deletes the first document with the id, then refetches |
| Projects.ProjectsLocal.AddRoundNotes | src/hooks/useProjectsLocal.ts:214-228 | Saves `NotedRounds`; no-op when the project is missing or the save fails |
| Projects.ProjectsLocal.AddProjectFromModel | src/hooks/useProjectsLocal.ts:230-265 | POSTs the document built from the model, then refetches |
| Projects.RowToProject | src/hooks/useProjects.ts:18-37 | One round `round-<id>` numbered `current_round`, at step 5 and completed exactly when the row awaits confirmation |
| Projects.FetchNewestFirst | src/hooks/useProjects.ts:43-56 | The page holds every row once, newest first |
| Storage.UpdateWhere | src/hooks/useProjects.ts:99-113 | `update(...).eq("id", id)`: the rows with the id updated in place, the others unchanged; the release hook's model-row writes (useReleases.ts:158-174) use it too |
| Projects.StepStatus | src/hooks/useProjects.ts:99-113 | Waiting for step 5, in progress otherwise |
| Projects.StepThenRead | src/hooks/useProjects.ts:18-113 | Read back after a step update, a project awaits confirmation and shows step 5 exactly when the step was 5 |
| Projects.ProjectsHook.Fetch | src/hooks/useProjects.ts:43-56 | Newest first; a failed query keeps the page |
| Projects.ProjectsHook.AddProject | src/hooks/useProjects.ts:78-97 | Inserts an in-progress row at round 1 and refetches |
| Projects.ProjectsHook.UpdateProjectStep | src/hooks/useProjects.ts:99-113 | Writes only the status and the time |
| Projects.ProjectsHook.StartNewRound | src/hooks/useProjects.ts:115-132 | The page's round plus one, the new test type, in progress |
| Projects.ProjectsHook.ConfirmProject | src/hooks/useProjects.ts:134-146 | Writes status completed |
| ReportParser.Trim | src/lib/reportParser.ts:84 | `trim()`: no white space at either end |
| ReportParser.TrimKeepsPiece | src/lib/reportParser.ts:84 | What `trim` keeps is the piece after the leading white space, and only white space is dropped |
| ReportParser.TrimIdempotent | src/lib/reportParser.ts:84 | Trimming twice is trimming once |
| ReportParser.IdentifyByShortKeys | src/lib/reportParser.ts:61-68 | Each report type is decided by its short key word, in the source's order of tests |
| ReportParser.IdentifyIgnoresCase | src/lib/reportParser.ts:61-68 | The type ignores letter case |
| ReportParser.Collect | src/lib/reportParser.ts:81-89 | At most one entry per row; which entries is stated by `CollectSound` and `CollectComplete` |
| ReportParser.RowsOf | src/lib/reportParser.ts:76-91 | Nothing for fewer than two rows; otherwise at most one entry per row after the header |
| ReportParser.CollectSound | src/lib/reportParser.ts:81-89 | Every entry comes from a present row |
| ReportParser.CollectComplete | src/lib/reportParser.ts:81-89 | Every present accepted row contributes its entry |
| ReportParser.ParseRows | src/lib/reportParser.ts:81-89 | The shared row loop equals `RowsOf` |
| ReportParser.InfoEntry | src/lib/reportParser.ts:82-89 | A row with a falsy first cell is skipped; a comparable field is flagged when the two sides differ |
| ReportParser.ModelInfoFacts | src/lib/reportParser.ts:76-91 | At most one entry per row; an entry is flagged different exactly when its field is comparable and its sides differ |
| ReportParser.AccuracyEntry | src/lib/reportParser.ts:99-108 | Every row gives a score: its trimmed first cell as bank and its fifth cell as delta, 0 when not numeric |
| ReportParser.PSIEntry | src/lib/reportParser.ts:143-154 | Every row gives an entry: its trimmed first cell as bank and its seventh cell as PSI, 0 when not numeric |
| ReportParser.CollectAll | src/lib/reportParser.ts:93-110 | With a reader that accepts every row, one entry per present row |
| ReportParser.Inner | src/lib/reportParser.ts:129 | `row.slice(1, -1)` with a percentage column, else `row.slice(1)` |
| ReportParser.CrossEntry | src/lib/reportParser.ts:124-132 | Exactly the totals row (`% of column`) is skipped; any other row gives its trimmed label, its inner cells as numbers and, with a percentage column, its last cell as total |
| ReportParser.CrosstabShape | src/lib/reportParser.ts:112-135 | With a percentage header, the first and last columns are dropped and every row carries its total; without, only the first column and no totals; the headers are the texts of the kept header cells in order; no totals row is kept |
| ReportParser.ParseCrosstab | src/lib/reportParser.ts:112-135 | The header test, the header slice and the row loop equal `CrosstabOf` |
| ReportParser.ReportShape | src/lib/reportParser.ts:158-219 | An unknown type fills only the model information; each other type fills its own tables |
| ReportParser.ReportFailsOnlyOnHeaderlessCrosstab | src/lib/reportParser.ts:112-119 | Only a crosstab sheet that exists and lacks its header row makes the parse fail |
| ReportParser.ParseReportFile | src/lib/reportParser.ts:158-219 | `parseReportFile` equals `ReportOf` of the sheets |
| Text.Split | lambda/handler.py:93 | `str.split`: at least one piece, none containing the separator, and joining gives back the input |
| Text.IndexOfIs | lambda/handler.py:94 | `list.index` finds the first occurrence |
| Text.SortStrings | docker/python-backend/main.py:135 | `sorted()`: ascending code-point order, same elements |
| Text.Greatest | docker/ce_python/api_server.py:238-240 | The greatest name, or none for an empty list |
| Text.PathJoin | lambda/handler.py:203-222 | `os.path.join`: an absolute second part wins; otherwise one separator is inserted only when the first part is non-empty and does not already end in one |
| Storage.MakeDirs | lambda/handler.py:227-228 | `os.makedirs`: afterwards a directory; no file changed |
| Storage.RemoveTree | lambda/handler.py:189-190 | `shutil.rmtree`: nothing at or below the folder remains, everything else is kept |
| Storage.Copy | lambda/handler.py:108-112 | `shutil.copy2`: the target gets the source's content |
| Storage.ListDir | dashboard.py:273 | `os.listdir`: each entry once, and exactly the names directly under the path |
| Storage.FilesUnder | lambda/handler.py:56-58 | Each file below the root once, and only those |
| Storage.DirectKeys | docker/ce_python/s3_helper.py:53-60 | The keys directly under the prefix of a delimited listing, ascending |
| Storage.CommonPrefixes | docker/ce_python/s3_helper.py:40-45 | The common prefixes of a delimited listing, each once, ascending |

## Left out

- Floating point: the progress `int(current/total*80)` is computed as the floor of the exact quotient. Report cells hold `real` values.
- FastAPI `BackgroundTasks`, threads and the server-sent event stream of the backend are not modelled. A background run is modelled as a method run after submission.
- ntpath parsing inside the evaluator is not modelled. Paths are joined with POSIX `os.path.join`.
- The order of `os.listdir` and `os.walk` is the store's creation order. A real file system may list entries in another order.
- JSON serialisation, logging and `print` are not modelled. Stored documents and payloads are modelled after decoding, and an optional key present with JSON `null` is decoded as absent. The lines below name where the source behaves differently for such a key.
- Dashboard.ExpertPaths: a `new_expert_rules` key present with `null` is not represented. The script's `config.get` then returns `None`, and `os.path.join` raises `TypeError` while the paths are set up (dashboard.py:94 and :97). That is before the `try`, so the script ends and the config stays unmarked. The model falls back to the old rule name instead.
- Dashboard.BasePath: a `data_root` key present with `null` is not represented. The script's `os.path.join` raises `TypeError` there, outside the `try`, while the model uses the default `<country>/<segment>/<date>`.
- LambdaHandler.DataRoot: a `data_root` key present with `null` is not represented. The handler raises `TypeError` at `os.path.join(LOCAL_ROOT, None)` (handler.py:194), after `/tmp/TEST_SUITE` has been removed, and uploads nothing. The model uses the default `<country>/<segment>` instead.
- LambdaHandler.OutputFolderName: an `output_folder_name` key present with `null` is not represented. The handler raises `TypeError` when it builds the output folder (handler.py:227), while the model uses `output`. A `version` present with `null` is likewise reported as `x.x.x` rather than `null`.
- Storage.MakeDirs: the cases where `os.makedirs` raises are not modelled. They are an empty folder name, as for a key with no folder part, and a path component that is an existing file. The model always makes the folder.
- S3Helper.DownloadFile: inherits the gap of `Storage.MakeDirs`. A local path with no folder part, or one below an existing file, makes the source raise before the download, while the model downloads.
- Clocks, uuids, `generateId`, the request's `now` and database ids and times are parameters. A batch insert uses one `now`. The server's own timestamps use the client's `now`.
- The other test-suite routes of the server (config, configs, output, download, health, run-stream) are not modelled.
- Bucket pagination is folded into one listing.
- Node's `path.join` normalisation of `.` and `..` is not modelled.
- JsonServer.NodeJoin: states only the cases with an empty segment; the joined form with one `/` is in its definition.
- JsonServer.RunConfigPath: states only the `.json` extension; the `run_<now>` name is in its definition.
- S3Helper.Countries: states only the order; which folders appear is `ChildFolderMembers` under the settings' prefix.
- S3Helper.Segments: states only the order; which folders appear is `ChildFolderMembers` under the country's prefix.
- JavaScript comparison across mixed value kinds is not modelled. Sorting compares values of one kind.
- LocalClient.ValueLe: arrays and objects in an order column compare as equal. JavaScript compares their string forms, which is not modelled.
- `Number()` parsing is not modelled: `ReportParser.NumberOr0` reads text cells as 0, and NaN is not represented.
- The confidence sheet is kept as raw rows rather than keyed objects.
- `toLowerCase` and `capitalize` act on ASCII letters only.
- A blank header cell of a crosstab is shown as the empty string. Sparse-array holes are modelled as missing rows.
- Table names that clash with JavaScript prototype properties are not modelled.
- Network failures of `fetch` are modelled as a failed answer, not an exception.
- Polling (`setInterval`) and realtime subscriptions are not modelled.
- The hooks' non-local branches for releases and projects are not modelled. `ReleasesLocal` and `ProjectsLocal` model local mode.
- Deleting a release row does not cascade to its model rows. The database's foreign-key behaviour is not part of this model.
- Ids in URLs that contain `/` are not modelled.
- A `countries` entry whose JSON does not decode is modelled as `Undecodable`. Malformed local-storage text is not modelled.
- Directory listings omit entry size and modification time.
- A failed write in the server's test-suite run route is not modelled. An Express error answer is modelled as a 500 with no body.
- The Lambda handler assumes names without `/` in the country and segment.
- Releases.NewRoundThenStep: requires a current round of at least 1. With `currentRound` below 1, `(currentRound || 1)` no longer tracks the new round, and the step update may miss it.
- The `useProjects` hook's `updateProjectStatus`, `deleteProject` and `addRoundNotes` are not modelled. The last is a no-op there.
- The evaluator's internals, Excel and PDF writing, and Azure batch parameters are not modelled. The evaluator is the `Pipeline.Evaluator` parameter.
- The Streamlit page of `dashboard.py` is not modelled. On a button press it runs and marks every config of one scan, as one watch-mode drain does, and displays each config.
- Dashboard.Watch: the script polls every five seconds for as long as nothing is pending. The model polls once per batch of `arrivals` and ends with no run when they run out.
- Dashboard.MarkConfigDone: only a missing parent folder makes `open` raise. A marker path that names an existing folder, or a failed write, is not modelled.
- RestBackend.RunTests: requires a country, segment and date without `/`. The date is `yymmdd`, and country and segment are folder names from the listings. A request naming a nested path would put the collected reports in subfolders, which the collection model does not cover.
- RestBackend.TaggerEnv: requires a country and date without `/`, for the same reason.
- RestBackend.RunTaggerTests: requires a country and date without `/`, for the same reason.

## Findings

| source | as written | input that shows it | evidently intended | confidence | as-written member | corrected member |
|---|---|---|---|---|---|---|
| dashboard.py:281-285 | `mark_config_done` replaces `.json` in the whole path, folder included | config `a.json` in the folder `/q.json` beside a folder `/q.done`: the marker goes to `/q.done/a.done` and the config stays pending, to be run again on every pass | the marker `a.done` beside the config, in the same folder, which the scan looks for | not executed | Dashboard.AsWrittenMarkerMissesConfig | Dashboard.MarkedNotPending |
| dashboard.py:281-285 | `mark_config_done` replaces `.json` in the whole path, folder included | config `a.json` in the folder `/q.json` with no folder `/q.done`: `open` raises after the run and ends the script | the marker `a.done` written in the config's own folder, which exists | not executed | Dashboard.AsWrittenMarkerRaises | Dashboard.DonePathOfConfig |
