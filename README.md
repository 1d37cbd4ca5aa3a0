# deploy-manager core, modelled in Dafny

deploy-manager is a small dashboard that starts, stops and watches a set of
locally deployed projects. This model covers its three service classes:

- **`ProjectService`** (`services/ProjectService.js`):
  - the `ps aux` parser;
  - how a project's processes are recognised and its status computed from one port probe and one process listing;
  - the service URL;
  - the start, stop and restart decisions with their three launch strategies (Docker Compose, service script, manual);
  - the service object and its cache of the last status of each project.
- **`LogManager`** (`services/LogManager.js`):
  - the bounded in-memory buffer of entries kept per project;
  - the pipeline that reads entries back from a log file;
  - the write-and-rotate rule for log files;
  - the log queries and clearing.
- **`SystemMonitor`** (`services/SystemMonitor.js`): the GPU checks and the hardware-based project recommendations.

Layout, one module per file:

| file | module | contents |
|---|---|---|
| `wrappers.dfy` | `Wrappers` | `Option` and `Result` |
| `builtins.dfy` | `Builtins` | the JavaScript built-ins the services rely on (listed below) |
| `process_table.dfy` | `ProcessTable` | the `ps aux` listing parser |
| `reconcile.dfy` | `Reconcile` | process matching, URL and status of one project |
| `projects.dfy` | `Projects` | launch strategies, start and stop decisions, the `ProjectService` class |
| `logging.dfy` | `Logging` | the read pipeline, rotation, bounded buffers, the `LogManager` class |
| `monitor.dfy` | `Monitor` | GPU report, recommendations, the `SystemMonitor` class |

The built-ins in `Builtins` are `trim`, `split`, `join`, `includes`, `toLowerCase`, `replace`, `parseInt`, `String(n)`, `slice(-n)` and `filter`. `Builtins` also holds `RefreshEach`, the `for … of` loop shared by both services that refreshes one map entry per id.

Everything the services ask of the outside world is an input of the model:

- One `Observation` stands for one status check: the port probe's answer and the `ps aux` output, or the error either failed with.
- A `LaunchEnv` stands for one strategy call: whether the working directory exists and how the shell command ended.
- File contents, file read failures and timestamps are arguments.
- `JSON.parse` and `JSON.stringify` are functions the caller supplies.

Several behaviours of the code as written are kept as they are:

- The script strategies always fail. They destructure a `path` string that hides the `path` module, so `path.join` throws a `TypeError`.
- The manual stop kills nothing. Its loop calls `kill` on the process record, which has no such method, so every attempt throws and is logged.
- A start whose re-probe fails caches the degraded status and then throws while reading `newStatus.port.url`.
- A stop whose re-probe fails reports success.
- The URL follows the port state, not the running flag.
- `slice(-0)` returns the whole list.
- The GPU thresholds 6000 and 12000 are compared with the video memory figure as the monitor stores it. `getCurrentInfo` stores that figure divided by 1024 and rounded. The model keeps the comparison exactly as written.

## Model

| member | source | states |
|---|---|---|
| ProcessTable.ParseLine | services/ProjectService.js:16-29 | a line yields a process exactly when it has at least 11 whitespace-separated fields; the command line is non-empty and its words are fields 11 onwards; the process is: pid parsed from field 2, name the base name of field 11, command fields 11 onwards joined by single spaces, resident size parsed from field 6 or 0 when not a number |
| ProcessTable.BaseNameSpec | services/ProjectService.js:22 | the name is the part of field 11 after its last `/`; when that part is empty the name is the whole field |
| ProcessTable.ParseLineOfColumns | services/ProjectService.js:17-28 | a line of single-space separated columns reads back as: pid from column 2, name from column 11, command from columns 11 onwards, resident size from column 6 |
| ProcessTable.LineRecords | services/ProjectService.js:16-30 | a line contributes at most one process |
| ProcessTable.ParseLines | services/ProjectService.js:16-30 | never more processes than lines |
| ProcessTable.ParseLinesSound | services/ProjectService.js:16-30 | every process comes from some line that parses to it |
| ProcessTable.ParseLinesComplete | services/ProjectService.js:16-30 | every line that describes a process contributes it |
| ProcessTable.ParseLinesAppend | services/ProjectService.js:16-30 | parsing distributes over concatenation, so processes keep the order of their lines |
| ProcessTable.ParseListing | services/ProjectService.js:15 | the header line is dropped: at most one process per line after the first |
| ProcessTable.ParseListingDropsHeader | services/ProjectService.js:15-30 | a listing made of a header line followed by rows yields exactly the parsed rows, in order: the header is never read as a process |
| ProcessTable.ParseListingOfOneLine | services/ProjectService.js:15 | a listing of the header alone, or of nothing, holds no process |
| Reconcile.Slug | services/ProjectService.js:98 | the slug of a name holds no white space and no upper-case letter; it is the lower-cased name with white space collapsed as `CollapseSpacesAfterWord` and `CollapseSpacesRun` state |
| Builtins.CollapseSpacesAfterWord | services/ProjectService.js:98 | characters other than white space pass through the replacement unchanged |
| Builtins.CollapseSpacesRun | services/ProjectService.js:98 | every maximal run of white space, of any length and also at the start or the end, becomes a single `-` |
| Reconcile.SlugOfWords | services/ProjectService.js:98 | words separated by single white-space characters slug to the same words lower-cased and joined by `-` |
| Reconcile.SlugIdempotent | services/ProjectService.js:98 | slugging a slug changes nothing |
| Reconcile.IsProcessOnPort | services/ProjectService.js:331-339 | a process counts as on the port when its command line is non-empty and mentions `:<port>`, `node`, `python` or `docker` |
| Reconcile.MatchesByName | services/ProjectService.js:97-99 | the command line mentions the id, the slug of the display name, or a non-empty service script |
| Reconcile.Matches | services/ProjectService.js:95-102 | a process belongs to the project when its command line is non-empty and a name rule holds, or the port is open and it counts as on the port |
| Reconcile.MatchedProcesses | services/ProjectService.js:95-102 | the matched processes are exactly the listed ones that pass the filter, taken from the listing |
| Reconcile.MatchedProcessesInOrder | services/ProjectService.js:95-102 | matching keeps the listing's order and multiplicity: it distributes over concatenation, and a single process is kept exactly when it matches |
| Reconcile.ClosedPortMatchesByName | services/ProjectService.js:95-102 | while the port is not open, matching is by the id, the slug or the service script alone |
| Reconcile.OpenPortHeuristicOverMatches | services/ProjectService.js:331-339 | while the port is open, any process whose command mentions `node` belongs to every project |
| Reconcile.ServiceUrl | services/ProjectService.js:341-347 | no URL while the port is not open; otherwise `https` for an `https` health check and `http` otherwise, then `://localhost:` and the default port |
| Reconcile.ServiceUrlReadsBack | services/ProjectService.js:341-347 | there is a URL exactly when the port is open; its scheme is `https` for an `https` health check and `http` otherwise, followed by `://localhost:` and the default port, which reads back as that port |
| Reconcile.CheckedStatus | services/ProjectService.js:104-123 | running iff some process matched and the port is open; the processes are the summaries of the matched processes, in listing order; the pid is the first match's, absent when none matched; the URL is the service URL, present iff the port is open |
| Reconcile.CheckedStatusRunning | services/ProjectService.js:95-104 | a checked project runs exactly when the port is open and some listed process matches it |
| Reconcile.ComputeStatus | services/ProjectService.js:88-132 | a failed port probe gives a degraded status with the probe's error; otherwise a failed listing gives one with the listing's error; when both answer the status is the checked status of the parsed listing; a status is never the placeholder and runs only on an open port with a listing |
| Reconcile.ComputeStatusRunning | services/ProjectService.js:88-132 | a project runs exactly when both probes answer, the port is open and some process of the listing matches |
| Reconcile.GetProjectStatus | services/ProjectService.js:82-132 | an unknown id throws the not-found message; a known id never throws and gets exactly the status its port probe and process listing give |
| Reconcile.UrlWithoutRunning | services/ProjectService.js:104-121 | with the port open and no match, the status carries a URL and is not running |
| Projects.ModeOf | services/ProjectService.js:168-174 | Docker Compose when the definition asks for it, else the service script when one is given, else the manual strategy; the stop path selects the same way (251-257) |
| Projects.StartCompose | services/ProjectService.js:191-208 | a missing working directory fails with its path; otherwise `docker-compose up -d` succeeds with the started message or fails with its error output |
| Projects.StopCompose | services/ProjectService.js:273-286 | `docker-compose down` succeeds with the stopped message or fails with its error output; the directory is not checked |
| Projects.StartStrategy | services/ProjectService.js:191-235 | a script project always fails with the `path.join` error; a manual one returns its message; a Compose project fails with the missing directory's path, or succeeds with its message when `docker-compose up -d` succeeds, or fails with the command's error output |
| Projects.StopStrategy | services/ProjectService.js:273-308 | a script project always fails with the `path.join` error; a manual one returns its message; a Compose project succeeds with its message when `docker-compose down` succeeds and fails with the command's error output otherwise |
| Projects.StopManualProject | services/ProjectService.js:310-323 | every process's kill attempt fails and is logged in order; the manual completion message is returned |
| Projects.StartDecision | services/ProjectService.js:154-189 | unknown id throws unwrapped; a running project is left alone; whatever is cached is the fresh status; success is the re-probe's running flag and the URL the re-probe's; other failures carry the project's name; a script project always fails; for a stopped project, a failing strategy gives its error wrapped with the name and caches nothing, and a succeeding one caches the re-probe and replies with its running flag, the strategy's message and the re-probe's URL, or throws the wrapped missing-port error when the re-probe failed |
| Projects.StopDecision | services/ProjectService.js:237-271 | unknown id throws unwrapped; a stopped project is left alone; whatever is cached is the fresh status; success is the negation of the re-probe's running flag; failures carry the project's name and cache nothing; for a running project, a failing strategy gives its error wrapped with the name, and a succeeding one caches the re-probe and replies with the strategy's message |
| Projects.StartShortCircuitLaunchesNothing | services/ProjectService.js:161-164 | starting a running project ignores the strategy and re-probe answers and caches nothing |
| Projects.ComposeStartSucceeds | services/ProjectService.js:154-208 | a Compose project that is down starts successfully with its URL when the command succeeds and a process matches on an open port |
| Projects.ManualStopChangesNothing | services/ProjectService.js:310-323 | a manual stop with an unchanged host reports failure with the manual message |
| Projects.StopSucceedsOnFailedReprobe | services/ProjectService.js:259-267 | a failed re-probe after a stop reports success |
| Projects.StartFailsOnFailedReprobe | services/ProjectService.js:176-187 | a failed re-probe after a launch is cached and the start fails with the wrapped `TypeError` |
| Projects.ProjectService.constructor | services/ProjectService.js:38-52 | the configuration as loaded, or no project when it cannot be read; an empty cache |
| Projects.ProjectService.ProjectsCount | services/ProjectService.js:78-80 | the number of configured projects |
| Projects.ProjectService.AllProjects | services/ProjectService.js:70-76 | every configured project exactly once with its definition, and its cached status or the placeholder |
| Projects.ProjectService.InitializeStatuses | services/ProjectService.js:54-68 | afterwards the cache holds the fresh status of every configured project and nothing else |
| Projects.ProjectService.GetAllProjectsStatus | services/ProjectService.js:135-152 | the result holds the fresh status of every project, and the cache becomes exactly the result |
| Projects.ProjectService.StartProject | services/ProjectService.js:154-189 | the reply is the start decision's and the cache changes only by the status it stores |
| Projects.ProjectService.StopProject | services/ProjectService.js:237-271 | the reply is the stop decision's and the cache changes only by the status it stores |
| Projects.ProjectService.RestartProject | services/ProjectService.js:325-329 | a failed stop is the reply and changes nothing; otherwise the start's reply is returned, the last stored status wins, and no other project's entry changes |
| Builtins.RefreshEach | services/ProjectService.js:137-141 | every listed id gets its computed entry, written both to the map and to the result; other entries stay |
| Builtins.TrimEmptyIffBlank | services/LogManager.js:120 | `line.trim()` is empty exactly when the line is white space only, the test the read pipeline applies to each line |
| Logging.LineEntries | services/LogManager.js:28-36 | a line yields at most one entry |
| Logging.ValidEntries | services/LogManager.js:118-128 | the entries of the non-blank lines that parse to a truthy value, in line order; never more entries than lines |
| Logging.ValidEntriesSound | services/LogManager.js:26-36 | every entry comes from a non-blank line that parses to it |
| Logging.ValidEntriesComplete | services/LogManager.js:26-36 | every non-blank line that parses to a kept value contributes it |
| Logging.ValidEntriesAppend | services/LogManager.js:26-36 | reading distributes over concatenation, so entries keep the order of their lines |
| Logging.LoadEntries | services/LogManager.js:26-37 | for a positive count, the last `count` valid entries in file order; for zero, all of them |
| Logging.RecentLogs | services/LogManager.js:115-136 | an unreadable file gives no entry; otherwise the load pipeline's result, never more than the count |
| Logging.ReadBackWrittenLog | services/LogManager.js:91-94 | entries written one JSON line each read back as exactly those entries, and `initialize` keeps the last 500 of them |
| Logging.BackupPath | services/LogManager.js:100 | the first `.log` of the live path replaced by `.old.log` |
| Logging.BackupPathInsertsOld | services/LogManager.js:100 | the backup path inserts `.old` before the first `.log`, and differs from the live path exactly when it contains `.log` |
| Logging.WriteToFile | services/LogManager.js:90-103 | the line is appended; above 10 MiB the grown file moves to the backup path and the live file holds only the line; no other file changes |
| Logging.AppendBounded | services/LogManager.js:76-84 | the new entry is last, the buffer never exceeds 500 and only the oldest entries are dropped |
| Logging.AppendBoundedShifts | services/LogManager.js:76-84 | a buffer below the bound grows by the entry; a full one drops exactly its oldest entry |
| Logging.InitialBuffer | services/LogManager.js:24-42 | an unreadable file gives an empty buffer; otherwise the last 500 valid entries |
| Logging.LogManager.constructor | services/LogManager.js:5-11 | a buffer for each configured project, loaded from its file, none over 500 |
| Logging.LogManager.Initialize | services/LogManager.js:20-43 | each listed project's buffer is replaced by the one loaded from its file; other buffers stay |
| Logging.LogManager.AddLog | services/LogManager.js:58-88 | only a truthy project id changes a buffer, by the bounded append; the bound is kept |
| Logging.LogManager.GetProjectLogs | services/LogManager.js:138-141 | the last `count` entries of the project's buffer, none for an unknown project |
| Logging.LogManager.ClearLogs | services/LogManager.js:143-153 | a truthy id empties that buffer and it stays empty; the logged entry names no project |
| Monitor.Any | services/SystemMonitor.js:115-121 | `some` is true exactly when some controller passes the test |
| Monitor.MaxVram | services/SystemMonitor.js:118 | negative infinity exactly for no controller; otherwise a bound on every figure that some figure attains |
| Monitor.GpuRequirements | services/SystemMonitor.js:110-123 | a missing GPU section throws; each flag holds exactly when some controller passes its test; suitable for AI implies NVIDIA and enough memory; the total video memory is minus infinity for no controller and otherwise the largest memory figure of the controllers, missing figures counting as 0 |
| Monitor.MaxVramAtLeast | services/SystemMonitor.js:117-118 | the largest figure reaches a positive threshold exactly when some controller's does, so `hasVRAM` agrees with `totalVRAM >= 6000` |
| Monitor.MemoryGB | services/SystemMonitor.js:128 | the stored memory total, or 0 when it is missing or 0 |
| Monitor.CoreCount | services/SystemMonitor.js:129 | the stored core count, or 1 when it is missing or 0 |
| Monitor.Recommend | services/SystemMonitor.js:126-129 | the recommendations fail exactly when the GPU section is missing |
| Monitor.RecommendByController | services/SystemMonitor.js:139-154 | each tier is recommended exactly when its rule holds, stated over the controllers, the memory and the cores |
| Monitor.RecommendTiersConsistent | services/SystemMonitor.js:139-154 | a machine warned against gets no everyday projects; the GPU tier lists at most `fauxpilot`, `vace`, `profitpilot` in that order |
| Monitor.AssistantWithoutSuitableGpu | services/SystemMonitor.js:144-146 | `fauxpilot` is recommended on a machine that is not suitable for AI |
| Monitor.AssistantAndWarningTogether | services/SystemMonitor.js:144-154 | `fauxpilot` can be recommended and warned against at once |
| Monitor.SystemMonitor.constructor | services/SystemMonitor.js:4-7 | the monitor starts from empty figures |
| Monitor.SystemMonitor.InitializeMonitoring | services/SystemMonitor.js:9-11 | a successful reading replaces the figures; a failed one keeps them |
| Monitor.SystemMonitor.GetRecommendedProjects | services/SystemMonitor.js:126-157 | the lists built by pushes are the recommendations of the current figures |

## Left out

- The shell is not modelled: `exec` of `ps aux`, `docker-compose`, `chmod` and the scripts, with their timeouts. Each command's outcome is an input.
- The port probe, `fs.existsSync` and the file reads are not modelled either. Their answers are inputs.
- The settle delays of start, stop and restart (`sleep`) are not modelled.
- `initializeStatuses` and `initializeMonitoring` run unawaited from the constructors. The model treats them as separate calls and does not capture how they interleave with other calls.
- `startProject`, `stopProject` and `restartProject` are each modelled as one atomic step. In the source they `await` the probes and `sleep` between reading a project's status and writing its cache entry, so concurrent calls on one id can interleave and overwrite each other's entry; the model does not capture that.
- Floating point is not modelled: the CPU and memory percentages of the listing, and all of `getCurrentInfo` and `getDetailedInfo` in `SystemMonitor`. The monitor's figures are an input.
- The `lastCheck` and `timestamp` dates are not modelled; a log entry's timestamp is an input string.
- The console output is not modelled. The manual stop's failed kills are returned as a list instead of printed.
- Reading `config/projects.json` is an input: a well-formed table, or nothing when it cannot be read. A malformed file, such as a project without a name, is not modelled.
- `parseInt` is read as decimal only. A `0x` prefix, which JavaScript reads as hexadecimal, is not modelled.
- `toLowerCase` folds ASCII letters only.
- Strings are sequences of characters. File sizes are counted in characters, not UTF-8 bytes.
- `JSON.parse` and `JSON.stringify` are functions the caller supplies. Any truthy value a line parses to is taken to be a log entry.
- Logging.LogManager.AddLog: does not perform the writes to the main and project log files. Their effect on file contents is `WriteToFile`, stated on its own.
- Logging.WriteToFile: the branch where `statSync` fails, including the `ENOENT` rewrite, is not modelled. Neither are failures of `appendFileSync` and `renameSync`.
- `clearLogs` truncates the log file; that write is not modelled.
- `maxLogs` (1000) is set but never used by the source, so it is not modelled.
- The default counts of `getRecentLogs` and `getProjectLogs` (100) are not modelled; callers pass the count.
- The `catch` branches of `initializeStatuses` (59-65) and `getAllProjectsStatus` (142-148) are not modelled. They are reached when `getProjectStatus` throws for an id of the configuration, which happens when the configuration maps that id to a falsy value such as `null`; the model's configuration maps every id to a project definition, so these branches have no counterpart.
- Reconcile.GetProjectStatus: an id is known exactly when it is a key of the configuration map. The source looks the id up as an object property, so an id naming an inherited property (`constructor`, `toString`, `__proto__`) is found and not rejected, and an id mapped to a falsy value is rejected; neither case is modelled. The same holds for the id lookups of `Projects.StartDecision` and `Projects.StopDecision`.
- A `null` URL and a missing URL are not distinguished. Both are `None`.
- The placeholder status `{ running: false, pid: null }` of `getAllProjects` is the `NotChecked` status.
- `dockerCompose` is reduced to its truthiness.
