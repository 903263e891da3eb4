# Annotation extractor and GEO inspector, modelled in Dafny

Two command-line scripts prepare methylation data:

- `s00007_extract_annotation.py` downloads and unpacks the Illumina 450k annotation archive. It can also load its two RDA objects and export them as one CSV.
- `s00005_geo_inspector.py` downloads a GEO series and flattens per-sample phenotype metadata into a table and a tally.

Most of their code calls into libraries: HTTP, tar, GEOparse, rpy2, pandas, joblib and psutil. This project models the sequential rules underneath those calls and proves properties of them:

- `PosixPath` (`posix_path.dfy`) covers POSIX `os.path.join`, `split('/')`, `normpath` and `abspath`, with the working directory as a parameter. It also covers `os.path.commonprefix` of two strings.
- `Text` (`text.dfy`) covers ASCII `strip()` and `lower()`, `find`, and decimal rendering and parsing of numbers.
- `FileStore` (`files.dfy`) is an abstract file system: a map from path to size, the "exists and is non-empty" cache test, and `shutil.move`.
- `Telemetry` (`telemetry.dfy`) covers what both scripts share. The two scripts carry copies of it (`s00005_geo_inspector.py` lines 70-149 and `s00007_extract_annotation.py` lines 82-161) that are identical up to one type annotation: the first declares the type of `self.before` (line 131), the second does not (line 143), and the table cites the first:
  - `format_duration`, which is `str(timedelta)` on whole seconds, including the day prefix and negative values, plus its reader `ParseClock`;
  - `SystemMonitor.delta` in exact real arithmetic;
  - the `FileLogger` as a class holding the list of logged lines;
  - the `StepTimer` context manager as a class whose `Enter` and `Exit` update its fields and append to the log.
- `Annotation` (`annotation.dfy`) covers the `AnnotationInspector` class:
  - the derived paths and the download cache rule;
  - the path-traversal guard `_safe_extract` / `is_within_directory`, as a loop over the member names, between opening the archive and `extractall`, both of which can fail;
  - the `_discover_rda` scan, as the nested loop with its `break`;
  - the five timed steps of `run` and which of them run, for each combination of `process_rda` and `rpy2_ok`.
- `Geo` (`geo.dfy`) covers the `GeoDatasetFetcher` class:
  - its output paths;
  - `download_soft`: the cache short-circuit, and the rename loop that moves the first listed SOFT file;
  - `summarize_phenotypes`: the loop that builds one record per sample, the `Counter` tally and the summary lines it logs.

Each loop of the source is a `method` with a loop, proved equal to a specification function, and each object whose fields the source updates is a `class`. The properties the scripts promise are lemmas about those functions. Log lines are constructors of `LogLine`, one per logging call:

- `Start`, `Fail`, `DeltaLine` and `Done` for the timer;
- `Usage` for the resource report;
- `Message` for every other line.

The emoji are dropped, and the arrow in "Downloading *id* ➜ *path*" is written as "to".

Inputs from the outside world are parameters:

- the clock readings and snapshots each timer takes (`Reading`, `StepClock`, `Clocks`);
- the HTTP reply (`HttpReply`);
- whether `tarfile.open` can read the archive, and if so its member names (`None` stands for an unreadable archive);
- whether `extractall` succeeds;
- the `os.walk` of the extraction directory (`Walk`);
- whether the R bridge and the pandas join succeed;
- the file map GEOparse leaves behind;
- `os.listdir`, in the order given;
- whether `rpy2` imported.

## Model

| member | source | states |
|---|---|---|
| PosixPath.Split | s00007_extract_annotation.py:247-248 | splitting a path at `/` always yields at least one component |
| PosixPath.SplitRoundTrip | s00007_extract_annotation.py:247-248 | joining the components of `Split(s)` with `/` gives back `s`, and no component contains `/` |
| PosixPath.SplitAroundSlash | s00007_extract_annotation.py:253 | the components of `a + "/" + b` are those of `a` followed by those of `b` |
| PosixPath.SplitWithoutSlash | s00007_extract_annotation.py:253 | a name without `/` is a single component |
| PosixPath.SplitOfJoinComps | s00007_extract_annotation.py:247-248 | splitting a `/`-joined list of slash-free components gives that list back |
| PosixPath.RootSlashes | s00007_extract_annotation.py:247-248 | `normpath` keeps 0, 1 or 2 leading slashes, and 0 exactly for a relative path |
| PosixPath.Slashes | s00007_extract_annotation.py:247-248 | the kept root is a string of exactly that many slashes |
| PosixPath.NormPath | s00007_extract_annotation.py:247-248 | `normpath` never returns the empty string (it returns `.` for an empty result) |
| PosixPath.CommonPrefix | s00007_extract_annotation.py:249 | `commonprefix` of two strings is a prefix of both and cannot be extended: it ends where a string ends or where the two differ |
| PosixPath.CommonPrefixIsPrefix | s00007_extract_annotation.py:249 | `commonprefix([a, b]) == a` exactly when `a` is a character prefix of `b` |
| PosixPath.CommonPrefixSymmetric | s00007_extract_annotation.py:249 | the order of the two paths in the list does not matter |
| PosixPath.CollapseAppend | s00007_extract_annotation.py:247-248 | resolving `.` and `..` over concatenated components is resolving the first part, then the rest from there |
| PosixPath.CollapseWithoutParent | s00007_extract_annotation.py:247-248 | components without `..` are only appended, minus empty and `.` ones |
| PosixPath.JoinAssociative | s00007_extract_annotation.py:253 | `join(a, join(b, c)) == join(join(a, b), c)` for relative `b` and `c` |
| PosixPath.RootSlashesOfJoin | s00007_extract_annotation.py:253 | joining a relative name keeps the base's leading slashes |
| PosixPath.CollapseOfJoin | s00007_extract_annotation.py:253 | joining a relative name without `..` appends its names to the resolved base |
| PosixPath.NormPathExtends | s00007_extract_annotation.py:247-249 | for an absolute base and a relative name without `..`, the normalised base is a prefix of the normalised join |
| PosixPath.SplitOfTwoNames | s00007_extract_annotation.py:247-248 | `/a/b` splits into `"", a, b` |
| PosixPath.NormPathOfTwoNames | s00007_extract_annotation.py:247-248 | `/a/b` is already normal |
| PosixPath.SplitOfParentStep | s00007_extract_annotation.py:253 | `join("/a/b", "../c")` splits into `"", a, b, .., c` with one root slash |
| PosixPath.CollapseParentStep | s00007_extract_annotation.py:247-248 | resolving `a, b, .., c` from the root leaves `a, c` |
| PosixPath.NormPathParentStep | s00007_extract_annotation.py:247-248 | `normpath(join("/a/b", "../c")) == "/a/c"` |
| PosixPath.SplitOfDoubleParentStep | s00007_extract_annotation.py:253 | `join("/a/b", "../../c")` splits into `"", a, b, .., .., c` with one root slash |
| PosixPath.CollapseDoubleParentStep | s00007_extract_annotation.py:247-248 | resolving `a, b, .., .., c` from the root leaves only `c` |
| PosixPath.NormPathDoubleParentStep | s00007_extract_annotation.py:247-248 | `normpath(join("/a/b", "../../c")) == "/c"`: two parent steps climb two levels |
| PosixPath.CollapseRootedKeepsNames | s00007_extract_annotation.py:247-248 | on a rooted path, resolving separator-free pieces onto plain names leaves only plain names: no empty piece, `.` or `..` survives |
| PosixPath.NormPathAbsoluteForm | s00007_extract_annotation.py:247-248 | the normal form of an absolute path is one or two root slashes followed by plain names (no empty piece, `.` or `..`) joined by single slashes |
| Text.TrimLeft | s00005_geo_inspector.py:243 | the result is a suffix of the input that is empty or starts with a non-space |
| Text.TrimLeftDropsSpace | s00005_geo_inspector.py:243 | everything dropped on the left is whitespace |
| Text.TrimRight | s00005_geo_inspector.py:243 | the result is a prefix of the input that is empty or ends with a non-space |
| Text.TrimRightDropsSpace | s00005_geo_inspector.py:243 | everything dropped on the right is whitespace |
| Text.Strip | s00005_geo_inspector.py:243 | the stripped string is no longer than the input, and is empty or has non-space ends |
| Text.StripInfix | s00005_geo_inspector.py:243 | `strip()` returns a contiguous infix of its input, with only whitespace cut on either side |
| Text.StripIdempotent | s00005_geo_inspector.py:243 | stripping twice is stripping once |
| Text.StripPadded | s00005_geo_inspector.py:243 | one space on either side of a non-blank core is removed |
| Text.LowerChar | s00005_geo_inspector.py:243 | a lower-cased character is never an upper-case ASCII letter |
| Text.Lower | s00005_geo_inspector.py:243 | `lower()` keeps the length and maps every character through `LowerChar` |
| Text.LowerIdempotent | s00007_extract_annotation.py:192-194 | lower-casing twice is lower-casing once |
| Text.IndexOf | s00005_geo_inspector.py:241-242 | the first occurrence of a character: none exactly when it is absent, otherwise an index holding it with no earlier one |
| Text.IndexOfFirstColon | s00005_geo_inspector.py:242 | in `h + ":" + rest` with no colon in `h`, the first colon sits right after `h` |
| Text.DigitChar | s00005_geo_inspector.py:72 | the digit character of `d` has the value `d` |
| Text.NatToString | s00005_geo_inspector.py:72 | `str(n)` is a non-empty string of digits with no leading zero, one digit exactly below 10 |
| Text.DecimalRoundTrip | s00005_geo_inspector.py:72 | reading back `str(n)` gives `n` |
| Text.Pad2 | s00005_geo_inspector.py:72 | `%02d` below 100 is two digits that read back as the number |
| Text.IntToString | s00005_geo_inspector.py:72 | `str(i)` starts with `-` exactly when `i` is negative. The rest is a decimal numeral without leading zero whose value is the magnitude of `i`; a non-negative `i` is written as digits reading back to `i` |
| FileStore.Move | s00005_geo_inspector.py:185 | `shutil.move` fails exactly when the source is missing. Otherwise the target holds the source's size, a distinct source is gone, and nothing but these two paths changes |
| FileStore.MoveOntoItself | s00005_geo_inspector.py:184-185 | moving a file onto itself changes nothing |
| Telemetry.ClockSplit | s00005_geo_inspector.py:70-72 | below one day, hours, minutes and seconds recombine to the total, with hours below 24 |
| Telemetry.ParseClockAtFirstColon | s00005_geo_inspector.py:70-72 | reading `H:...` splits at the colon after the hour digits |
| Telemetry.ParseClockFieldsOf | s00005_geo_inspector.py:70-72 | reading `MM:SS` after the hours gives `H*3600 + MM*60 + SS` |
| Telemetry.ClockFieldsRoundTrip | s00005_geo_inspector.py:70-72 | reading back `"%d:%02d:%02d"` gives the seconds it stands for |
| Telemetry.ClockRoundTrip | s00005_geo_inspector.py:70-72 | below one day, reading back the `H:MM:SS` text gives the number of seconds |
| Telemetry.FormatDurationRoundTrip | s00005_geo_inspector.py:70-72 | below one day `format_duration(n)` is exactly `H:MM:SS` with MM and SS below 60 and `H*3600 + MM*60 + SS == n` |
| Telemetry.FormatDurationWithDays | s00005_geo_inspector.py:70-72 | from one day on, the text starts with `D day, ` or `D days, ` (D at least 1), followed by the time of day |
| Telemetry.FormatDurationExamples | s00005_geo_inspector.py:70-72 | 0 gives `0:00:00` and 3661 gives `1:01:01` |
| Telemetry.FormatDurationOneDay | s00005_geo_inspector.py:70-72 | 86400 gives `1 day, 0:00:00` |
| Telemetry.Clock59 | s00005_geo_inspector.py:70-72 | 59 seconds are `0:00:59` |
| Telemetry.FormatDurationTwoDays | s00005_geo_inspector.py:70-72 | two days and 59 seconds give `2 days, 0:00:59` |
| Telemetry.ClockLastSecond | s00005_geo_inspector.py:70-72 | the last second of a day is `23:59:59` |
| Telemetry.FormatDurationNegative | s00005_geo_inspector.py:70-72 | -1 gives `-1 day, 23:59:59`, as `timedelta` floors the day count |
| Telemetry.Delta | s00005_geo_inspector.py:115-120 | the byte deltas times 2^20 are the differences of the counters, positive exactly when usage grew; `cpu_after` is the later snapshot's CPU |
| Telemetry.DeltaOfSameSnapshot | s00005_geo_inspector.py:115-120 | a snapshot compared with itself has zero memory and disk deltas |
| Telemetry.DeltaSwapped | s00005_geo_inspector.py:115-120 | swapping before and after negates both deltas |
| Telemetry.DeltaExample | s00005_geo_inspector.py:117 | 100 MiB used before and 150 MiB after give a memory delta of 50 |
| Telemetry.Logger.constructor | s00005_geo_inspector.py:82-85 | a new logger has logged nothing |
| Telemetry.Logger.Log | s00005_geo_inspector.py:82-85 | logging appends exactly that line |
| Telemetry.ExitClosesOnce | s00005_geo_inspector.py:139-149 | `__exit__` appends exactly one closing line, last, for the step's title. It is a failure line exactly when the body raised, and otherwise is preceded by the delta line |
| Telemetry.StepTimer.constructor | s00005_geo_inspector.py:126-131 | a fresh timer has its title and logger, `t0 == 0` and no snapshot yet |
| Telemetry.StepTimer.Enter | s00005_geo_inspector.py:133-137 | `__enter__` logs the start line and nothing else, then records the clock and the snapshot |
| Telemetry.StepTimer.Exit | s00005_geo_inspector.py:139-149 | `__exit__` never suppresses the exception and appends exactly the closing lines of `ExitLines` for the time elapsed since `__enter__` |
| Annotation.DerivedPaths | s00007_extract_annotation.py:190-194 | the archive, the extraction directory and the merged CSV sit directly under the data directory, use the lower-cased tag, and the CSV is named after the extraction directory |
| Annotation.TagCaseIrrelevant | s00007_extract_annotation.py:192-194 | the tag's case does not change the paths |
| Annotation.DownloadIfNeeded | s00007_extract_annotation.py:236-242 | a non-empty existing file is kept without fetching. Otherwise a good reply writes the body's size. It fails exactly on a miss with no connection or a 4xx/5xx status |
| Annotation.DownloadIdempotent | s00007_extract_annotation.py:237-238 | after a download that left a non-empty file, a second call changes nothing, whatever the network answers |
| Annotation.GuardIsCharacterPrefix | s00007_extract_annotation.py:246-254 | a member is accepted exactly when the absolute extraction directory is a character prefix of the absolute joined path; an absolute name is checked as itself |
| Annotation.RelativeMemberAllowed | s00007_extract_annotation.py:246-254 | every relative name without a `..` component is accepted |
| Annotation.ParentEscapeRejected | s00007_extract_annotation.py:253-255 | with extraction directory `/data/x`, `../evil` is rejected |
| Annotation.ParentStepAllowedIff | s00007_extract_annotation.py:245-255 | for any plain names `a`, `b` and `c`, the member `../c` of directory `/a/b` passes exactly when `b` is a character prefix of `c` |
| Annotation.DoubleParentEscapeRejected | s00007_extract_annotation.py:245-255 | for any plain names `a`, `b` and `c`, the member `../../c` of directory `/a/b` is rejected |
| Annotation.DoubleParentExampleRejected | s00007_extract_annotation.py:253-255 | with extraction directory `/data/x`, `../../evil` is rejected |
| Annotation.SiblingWithSharedPrefix | s00007_extract_annotation.py:249 | `../` followed by a sibling whose name extends the directory's last name is accepted |
| Annotation.SiblingPrefixAccepted | s00007_extract_annotation.py:249 | `../x_evil` is accepted for `/data/x`, because the test compares characters, not path components |
| Annotation.NestedNamesAllowed | s00007_extract_annotation.py:253-254 | a member `a/b/c` of three plain names is accepted |
| Annotation.NestedMemberAccepted | s00007_extract_annotation.py:253-254 | `pkg/data/Locations.rda` is accepted for `/data/x` |
| Annotation.AbsoluteMemberRejected | s00007_extract_annotation.py:253-255 | the absolute name `/etc/passwd` is rejected for `/data/x` |
| Annotation.FirstRejected | s00007_extract_annotation.py:252-255 | the scan for a rejected member finds the first one, or none exactly when every member passes |
| Annotation.ExtractAllOrNothing | s00007_extract_annotation.py:252-256 | over a readable archive, the guard loop succeeds exactly when every member passes, and then yields every joined path in order. Otherwise it raises at the first rejected member, and nothing is extracted |
| Annotation.ExtractionOutcome | s00007_extract_annotation.py:245-256 | an unreadable archive raises before any check. Otherwise the first rejected member raises before anything is written, and `extractall` runs, and may fail, only after every member passed. Extraction succeeds exactly when the archive is readable, every member passes and `extractall` succeeds, and then yields every joined path |
| Annotation.SafeExtract | s00007_extract_annotation.py:245-256 | opening the archive, the loop that checks each member, and `extractall` together return `Extraction` |
| Annotation.RelativeArchiveExtracted | s00007_extract_annotation.py:251-256 | an archive of relative names without `..` is extracted |
| Annotation.EscapingMemberBlocksExtraction | s00007_extract_annotation.py:252-255 | any rejected member anywhere in the archive blocks the whole extraction, and the error names that member or an earlier one |
| Annotation.VisitedFrom | s00007_extract_annotation.py:261-269 | the number of directories the walk visits lies within the walk |
| Annotation.VisitedFromStops | s00007_extract_annotation.py:268-269 | the scan stops after the first directory at whose end both candidates are set, or at the end of the walk |
| Annotation.DirMatches | s00007_extract_annotation.py:262-267 | the matches within a directory are its file names that lower-case to the target |
| Annotation.Matches | s00007_extract_annotation.py:261-267 | the matches in a walk are walked entries whose names lower-case to the target |
| Annotation.DirMatchesComplete | s00007_extract_annotation.py:262-267 | every file name of the directory that lower-cases to the target is among its matches |
| Annotation.MatchesComplete | s00007_extract_annotation.py:261-267 | every walked file that lower-cases to the target is among the walk's matches |
| Annotation.MatchesEmptyIffAbsent | s00007_extract_annotation.py:261-267 | a walk has no match exactly when none of its files lower-cases to the target |
| Annotation.LastPathAppend | s00007_extract_annotation.py:265-267 | the last match of a concatenation is the later part's, falling back to the earlier part's |
| Annotation.ScanDirKeepsLast | s00007_extract_annotation.py:262-267 | within a directory the last match overwrites the earlier candidate |
| Annotation.ScanWalkKeepsLast | s00007_extract_annotation.py:261-267 | over the directories scanned, each candidate is the last match |
| Annotation.MatchesAppend | s00007_extract_annotation.py:261 | the matches of two walks in sequence are concatenated |
| Annotation.DiscoverKeepsLast | s00007_extract_annotation.py:261-269 | the candidates are the last matches in the visited directories |
| Annotation.VisitedMatchesPrefix | s00007_extract_annotation.py:268-269 | the matches split into those the scan visited and those it skipped |
| Annotation.DiscoverFailsIffMissing | s00007_extract_annotation.py:270-271 | `_discover_rda` raises exactly when `locations.rda` or `other.rda` has no match in the walk, and then it has walked everything |
| Annotation.DiscoverFailsIffAbsent | s00007_extract_annotation.py:261-271 | `_discover_rda` raises exactly when no walked file lower-cases to `locations.rda`, or none to `other.rda` |
| Annotation.DiscoverReturnsLastMatches | s00007_extract_annotation.py:261-272 | the returned paths are the last matches where the scan stopped |
| Annotation.DiscoveredNames | s00007_extract_annotation.py:263-272 | each returned path joins a walked directory and a file name that lower-cases to exactly `locations.rda` or `other.rda` |
| Annotation.LastMatchIsWalked | s00007_extract_annotation.py:263-267 | the last match is a walked file with the target's name |
| Annotation.InWalkPrefix | s00007_extract_annotation.py:261 | a file in the visited directories is in the walk |
| Annotation.DiscoverIgnoresLaterDirectories | s00007_extract_annotation.py:268-269 | once both files are found, later directories change nothing |
| Annotation.DiscoverRda | s00007_extract_annotation.py:259-272 | the nested loop with its `break` returns `Discover(walk)` |
| Annotation.StartTitlesAppend | s00007_extract_annotation.py:212-232 | the step titles and closing lines of two logs in sequence add up |
| Annotation.MessagesOnly | s00007_extract_annotation.py:228-232 | plain messages open and close no step |
| Annotation.StepLinesShape | s00007_extract_annotation.py:212-228 | a timed step whose body logs only messages opens its title once and closes it once, last, failing exactly when it raised |
| Annotation.SaveLinesAreMessages | s00007_extract_annotation.py:228 | step 5 logs only the saved-file message |
| Annotation.RdaTraceTitles | s00007_extract_annotation.py:218-228 | steps 3 to 5 open a prefix of their titles in order and close each one |
| Annotation.RdaTraceEnds | s00007_extract_annotation.py:218-232 | each of steps 3 to 5 that raises ends the run. Otherwise "Finished successfully" comes last, and the rpy2 warning is never logged |
| Annotation.RdaStepsShape | s00007_extract_annotation.py:218-228 | the timed RDA steps open titles 3, 4, 5 in order, at least step 3, and end the run |
| Annotation.AfterExtractShape | s00007_extract_annotation.py:218-232 | after extraction, the RDA steps run exactly when `process_rda && rpy2_ok`, and the warning is logged exactly when `process_rda && !rpy2_ok` |
| Annotation.RunTraceShape | s00007_extract_annotation.py:211-232 | steps 1 and 2 come first, in order; step 2 runs only after step 1 succeeds, and later steps only after step 2 succeeds |
| Annotation.RunStepGating | s00007_extract_annotation.py:211-232 | `run` opens a prefix of the five titles in order. Step 2 runs exactly when step 1 succeeds. Steps 3 to 5 run exactly when both succeed and `process_rda && rpy2_ok`. The warning appears exactly when both succeed and `process_rda && !rpy2_ok` |
| Annotation.RunClosing | s00007_extract_annotation.py:211-232 | every step opened is closed once, and "Finished successfully" is the last line exactly when nothing raised |
| Annotation.RunPlanShape | s00007_extract_annotation.py:211-232 | the gating and the closing of `run`, together |
| Annotation.AnnotationInspector.constructor | s00007_extract_annotation.py:170-208 | `__init__` keeps its arguments, derives the three paths and logs the start-up lines in order |
| Annotation.AnnotationInspector.OpenStep | s00007_extract_annotation.py:145-149 | entering a step's timer logs its start line and records the entry reading |
| Annotation.AnnotationInspector.CloseStep | s00007_extract_annotation.py:151-161 | leaving a step's timer completes that step's lines |
| Annotation.AnnotationInspector.DownloadStep | s00007_extract_annotation.py:212-213 | step 1 yields `DownloadIfNeeded` and logs a closed step |
| Annotation.AnnotationInspector.ExtractStep | s00007_extract_annotation.py:215-216 | step 2 yields `Extraction` of the archive and logs a closed step |
| Annotation.AnnotationInspector.LoadStep | s00007_extract_annotation.py:219-221 | step 3 yields the discovered paths, or their error, and logs a closed step |
| Annotation.AnnotationInspector.MergeStep | s00007_extract_annotation.py:223-224 | step 4 logs a closed step that fails exactly when the join fails |
| Annotation.AnnotationInspector.SaveStep | s00007_extract_annotation.py:226-228 | step 5 logs the saved line inside its timer when the CSV is written |
| Annotation.AnnotationInspector.RunRdaSteps | s00007_extract_annotation.py:218-228 | steps 3 to 5 as a sequence that stops at the first step that raises |
| Annotation.AnnotationInspector.Finish | s00007_extract_annotation.py:218-232 | what `run` does after extraction: its outcome and lines are `AfterExtract`'s |
| Annotation.AnnotationInspector.Run | s00007_extract_annotation.py:211-232 | the outcome and the log lines of `run` are `RunPlan`'s, whose shape `RunPlanShape` states |
| Geo.OutputPaths | s00005_geo_inspector.py:162-166 | the four output paths sit directly under their directories with the GEO id in the name, and the two files sharing a directory never collide |
| Geo.FirstSoftName | s00005_geo_inspector.py:181-182 | the first listed name that starts with the GEO id and ends with `.soft.gz`, or none exactly when no name does |
| Geo.SoftDownload | s00005_geo_inspector.py:172-187 | a non-empty existing target is kept untouched, and only a cache miss can fail |
| Geo.RenameFirstSoft | s00005_geo_inspector.py:181-186 | the `listdir` loop that moves the first SOFT file and breaks computes `RenameSoft` |
| Geo.AtMostOneMove | s00005_geo_inspector.py:181-186 | on a miss, only the first matching file and the target can change, and nothing changes when no name matches |
| Geo.MoveFillsTarget | s00005_geo_inspector.py:183-185 | when the first match exists, the target ends up holding its size, the source is gone if distinct, and a non-empty file makes the next call a cache hit |
| Geo.MoveErrorOnlyWhenMissing | s00005_geo_inspector.py:179-186 | on a miss, `download_soft` raises exactly when GEOparse raises, or when a distinct first match is missing from the file map |
| Geo.SecondDownloadIdempotent | s00005_geo_inspector.py:174-176 | a second call after a download that left a non-empty target changes nothing |
| Geo.SoftNameNeverTarget | s00005_geo_inspector.py:182-184 | a GEO id not starting with `s` or `/` never names the standard path, so a match is always moved |
| Geo.ParseItem | s00005_geo_inspector.py:241-243 | an item sets a key exactly when it contains `:` |
| Geo.ParseItemNormalised | s00005_geo_inspector.py:243 | a parsed key is already lower-case and a parsed value already stripped |
| Geo.ParseItemAtFirstColon | s00005_geo_inspector.py:241-243 | an item is split at its first colon only; key and value are normalised |
| Geo.NormaliseTimeKey | s00005_geo_inspector.py:243 | `Time` normalises to `time` |
| Geo.ParseTimeExample | s00005_geo_inspector.py:241-243 | `"Time: 10:30 "` sets `time` to `10:30` |
| Geo.ApplyKeepsKeys | s00005_geo_inspector.py:240-243 | items only add or overwrite keys, never remove one |
| Geo.RecordHasSampleId | s00005_geo_inspector.py:236 | every record has a `sample_id` key |
| Geo.LastSettingWins | s00005_geo_inspector.py:240-243 | a later item with the same normalised key overwrites an earlier one |
| Geo.UnsetKeyKept | s00005_geo_inspector.py:240-243 | a key no item sets keeps its value, or stays absent |
| Geo.NewKeysAreSet | s00005_geo_inspector.py:240-243 | every key beyond `sample_id` comes from an item |
| Geo.ItemWithoutColonSetsNothing | s00005_geo_inspector.py:241 | an item without `:` sets no key |
| Geo.IdOnlyRecord | s00005_geo_inspector.py:236-238 | a sample whose field is missing or empty yields a record with only `sample_id` |
| Geo.SampleIdKept | s00005_geo_inspector.py:236-243 | when no item's key normalises to `sample_id`, the record keeps the sample's id |
| Geo.SampleIdOverwritten | s00005_geo_inspector.py:236-243 | an item whose key normalises to `sample_id` overwrites the id, and the last such item wins |
| Geo.RowsPerSample | s00005_geo_inspector.py:234-244 | exactly one record per sample, in sample order |
| Geo.MultiplicityIsCount | s00005_geo_inspector.py:247 | the tally of the list counts each string as often as it occurs |
| Geo.TallyCounts | s00005_geo_inspector.py:238-247 | each raw string is tallied as often as it occurs across all samples' lists, and the counts add up to the total number of items |
| Geo.DistinctLabels | s00005_geo_inspector.py:249-250 | the tally's labels are exactly the values, each once |
| Geo.CountLinesPerLabel | s00005_geo_inspector.py:249-250 | one count line per label, in order, with that label's tally |
| Geo.SummaryReportsEachValueOnce | s00005_geo_inspector.py:247-251 | the summary reports every raw value exactly once, with a positive count |
| Geo.SetItems | s00005_geo_inspector.py:240-243 | the loop over one sample's items computes `Apply` of their settings |
| Geo.FlattenSamples | s00005_geo_inspector.py:233-244 | the loop over the samples builds `Rows` and `Values` |
| Geo.GeoDatasetFetcher.constructor | s00005_geo_inspector.py:158-166 | `__init__` keeps the GEO id and derives the four output paths |
| Geo.GeoDatasetFetcher.DownloadSoft | s00005_geo_inspector.py:172-187 | `download_soft` computes `SoftDownload` and logs the cache line, or the download line and, on success, the completion line |
| Geo.GeoDatasetFetcher.LogCounts | s00005_geo_inspector.py:249-250 | the `counter.items()` loop logs one count line per label |
| Geo.GeoDatasetFetcher.ReportTally | s00005_geo_inspector.py:247-256 | the summary block is logged in full |
| Geo.GeoDatasetFetcher.SummarizePhenotypes | s00005_geo_inspector.py:231-256 | `summarize_phenotypes` returns `Rows` and the tally of `Values`, and logs `SummaryLines` |

## Left out

- HTTP (`requests.get`, `raise_for_status`), GEOparse download and parsing, joblib, rpy2 and psutil are foreign calls. Their outcomes are inputs: `HttpReply`, the `fetched` file map, the listing, `loaded` and `merged`, and the snapshots.
- The pandas inner join and the two CSV exports, including column union and column order, are library behaviour. Step 5's result is an input (`exported`), and `summarize_phenotypes` returns its rows rather than writing them.
- The bytes `extractall` writes and the member types (symlinks, hard links) are out, since the guard does not inspect them. Whether `tarfile.open` reads the archive and whether `extractall` succeeds are inputs (`archive`, `unpacked`). A successful `_safe_extract` yields the joined member paths.
- Annotation.DownloadIfNeeded: does not model `open(out_path, "wb")` or `write` raising on a fetched body (a full disk, a missing directory), because the file store is a path-to-size map. A good reply always yields the written file.
- `os.makedirs`, `os.path.exists` beyond the path-to-size map, and the order of `os.walk` and `os.listdir`: the walk and the listing are given sequences.
- `SystemMonitor.report` and `snapshot` are left out. The usage report is one `Usage(snap)` line, because its text is float formatting (`:.2f`).
- Float formatting and rounding are left out. `round()` and sub-second times are not modelled: durations are whole seconds (as `int`) and deltas are exact reals, so banker's rounding and the `:+.2f` text are out.
- Emoji, and the exact text of the timer lines, are left out. The timer lines are structured `LogLine` constructors; other lines keep their text without emoji.
- Argument parsing, `configure_logging`, `main` of both scripts, the GEOparse log level, and the step sequence of the GEO script's `main` are left out.
- `load_or_parse_gse`, `inspect_sample` and `verify_gse_object` are left out. They only sequence library calls and index lists.
- `strip()` and `lower()` are ASCII only; Unicode whitespace and case mapping are out.
- Geo.RecordOf: a record is a `map`, so the insertion order of a Python dict's keys, and with it the CSV column order, is not captured.
- Telemetry.StepTimer.Exit: requires a prior `Enter`, which the `with` statement guarantees. Called without it, the source would fail with a missing key in `delta`.
- Geo.GeoDatasetFetcher.constructor: the data and results directories are constructor parameters rather than module-level configuration.
