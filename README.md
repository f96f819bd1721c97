# A terminal browser over an offline Kubernetes dump, modelled in Dafny

The program browses a directory `output/` that holds a dump of a Kubernetes cluster. The dump has one directory per namespace, with `pods.json`, `deployments.json` and one sub-directory per component holding its logs. The user moves through a set of screens with the keyboard:

- a main menu;
- the namespace list, and one namespace's details;
- its pods and deployments;
- a cluster-wide analysis that flags unhealthy pods and deployments;
- the details of one component;
- the list of log sources of a namespace;
- a log viewer with level filters.

This project models the program's logic and proves what it promises. The terminal drawing is not modelled.

- **Logs** (`src/logs.rs`): reading a level name.
  - The six-stage classifier of text log lines.
  - The JSON log reader with its field aliases and defaults.
  - The fixed order in which seven candidate paths are tried, and the fallback scan of the component directory.
  - The post-load sort, level filter, search, counters and prefix.
- **Kubernetes** (`src/kubernetes.rs`): the field extraction from pod and deployment records.
  - The sorted namespace list with its counts.
  - The cluster analysis that turns pods and deployments into issues, with totals.
- **Navigation** (`src/app.rs`): the `App` object as a Dafny class whose methods update its fields in place.
  - Each method is proved to produce the state a transition function gives.
  - The transition functions carry the lemmas: wrap-around movement, the back table, the per-screen list length, the frames of every Enter action, and a consistency invariant.
- **KeyDispatch** (`src/main.rs`): the key loop of `run_app` as a transition on `App`, run over a finite sequence of key events.
- **ClusterView**, **LogsViewer**, **LogsList** and **ComponentDetails** (`src/ui/*.rs`): the view-model logic of four screens.
  - The flattened analysis list and its highlighted row.
  - The exact-level log filter, the gauge arithmetic and the shortening of timestamps and messages.
  - The component-type guess and the log-source rows with their two fallbacks.
  - Pod and deployment health, the image name/tag split, and the order in which a component is looked up.
- Helper modules:
  - **Snapshot**: the filesystem as data.
  - **Json**: `serde_json::Value` as a datatype.
  - **Strings**: the `str` operations used.
  - **Sorting**: stable sort by a string key.
  - **Seqs**: filters and sums.
  - **Errors**: `AppError` and its `Display`.

The filesystem is a value of type `Snapshot.Fs`:

- the set of existing paths;
- a map from directory to its listing, in enumeration order;
- a map from file path to its text;
- a map from text to the JSON value it parses to, when it parses.

Every operation that reads the disk takes this snapshot as a parameter.

## Model

| member | source | states |
|---|---|---|
| Logs.LevelFromStr | src/logs.rs:33-58 | definition without a contract of its own: the lower-cased text by alias lists, then by keyword, else Info; LevelAliases, LevelFromStrIgnoresCase and LevelRoundTrip state its properties |
| Logs.LevelToString | src/logs.rs:69-76 | definition without a contract of its own: the upper-case name of each level; LevelRoundTrip shows LevelFromStr reads it back |
| Logs.LevelAliases | src/logs.rs:33-39 | each exact alias (error/err/fatal/failed, warning/warn/w, info/information/i, debug/dbg/trace/d) reads as its level |
| Logs.LevelFromStrIgnoresCase | src/logs.rs:33-57 | reading a level name does not depend on its case |
| Logs.LevelRoundTrip | src/logs.rs:33-76 | printing a level and reading it back gives the same level |
| Logs.LevelPriority | src/logs.rs:474-481 | priorities lie in 0..3 |
| Logs.LevelPriorityInjective | src/logs.rs:474-481 | two levels have the same priority exactly when they are equal |
| Logs.BracketLevelFrom | src/logs.rs:361-378 | the tag it reports is one of ERROR, WARN, WARNING, INFO, DEBUG, TRACE, from position `k` of that list on |
| Logs.BracketLevelFirstTag | src/logs.rs:361-378 | a tag is found iff some `[TAG]` of that list occurs in the line, and the tag reported is the first one in list order that occurs (not the leftmost in the line) |
| Logs.ErrorTagWins | src/logs.rs:361-378 | `[ERROR]` anywhere in a line makes it an Error entry from the bracket stage, whatever tag stands further left |
| Logs.LeadingErrorTag | src/logs.rs:361-378 | a line starting with `[ERROR]` gives the exact Error entry with timestamp `line-<k+1>` and the trimmed rest as message |
| Logs.LevelColonMessage | src/logs.rs:404-413 | definition without a contract of its own: the trimmed rest split at its first ':' into a trimmed level and message; LevelNeedsColon states it fails without a ':' |
| Logs.LevelNeedsColon | src/logs.rs:408-413 | without a ':' the ISO and bracketed-timestamp stages find no level |
| Logs.IsoLog | src/logs.rs:400-417 | definition without a contract of its own: the text up to the first 'Z' after the first 'T' as timestamp, then the level and message; IsoNeedsColon states its failure case |
| Logs.IsoNeedsColon | src/logs.rs:400-417 | the ISO stage fails when no ':' follows the 'Z' that ends the timestamp |
| Logs.BracketTimestampLog | src/logs.rs:419-434 | definition without a contract of its own: a leading `[timestamp]` up to the first ']', then the level and message; used in the stage order that StagePrecedence states |
| Logs.ContainerLog | src/logs.rs:436-448 | definition without a contract of its own: the four-way split on spaces; ContainerLogIffThreeSpaces and ContainerLogFields state when it applies and what its fields are |
| Logs.ContainerLogIffThreeSpaces | src/logs.rs:436-448 | the container stage succeeds exactly on lines with at least three spaces |
| Logs.ContainerLogFields | src/logs.rs:436-448 | the container stage cuts at the first three spaces and the message keeps any later ones; stream `stderr` gives ERROR |
| Logs.ContainerStreamLevel | src/logs.rs:332-339 | a container line's level is Error exactly for the ERROR tag and Info otherwise |
| Logs.LevelInLine | src/logs.rs:381-397 | definition without a contract of its own: the first keyword group found in the upper-cased line, ERROR before WARN before INFO before DEBUG; StagePrecedence states it decides the level of raw lines |
| Logs.ParseSingleTextLog | src/logs.rs:293-359 | definition without a contract of its own: the first recognising stage decides the entry; StagePrecedence, ErrorTagWins and LeadingErrorTag state its behaviour |
| Logs.StagePrecedence | src/logs.rs:293-358 | the first stage that recognises the line decides it, in the order bracket-level, ISO, bracketed timestamp, container, keyword, fallback; the keyword and raw stages are reached only by lines with fewer than three spaces |
| Logs.TextEntries | src/logs.rs:278-291 | definition without a contract of its own: one parsed entry per non-blank line, with its index among all lines; TextEntriesCount, TextEntryOfLine and ParseTextLogs state its properties |
| Logs.TextEntriesCount | src/logs.rs:278-291 | one entry per line that is not blank |
| Logs.TextEntryOfLine | src/logs.rs:278-291 | the k-th non-blank line gives the entry at its rank, parsed with its 0-based index in the whole content, blank lines included |
| Logs.ParseTextLogs | src/logs.rs:278-291 | the loop builds the entries of the non-blank lines, in order |
| Logs.FirstStr | src/logs.rs:243-268 | the value of the first alias whose field is a string; none exactly when no alias holds a string |
| Logs.ParseSingleJsonLog | src/logs.rs:242-276 | a JSON record always gives an entry |
| Logs.ItemEntries | src/logs.rs:221-227 | exactly one entry per array element, in order |
| Logs.ParseJsonLogs | src/logs.rs:217-240 | the reader gives the entries of an array or of a single object, or an error otherwise |
| Logs.ParseJsonItems | src/logs.rs:222-226 | the array loop pushes one entry per element |
| Logs.JsonEntriesCount | src/logs.rs:217-240 | Ok iff the value is an array or an object; one entry per element, or one for an object; otherwise the error displays "Invalid JSON log format" |
| Logs.JsonDefaults | src/logs.rs:243-268 | a record with no string alias gives timestamp "unknown", level Info, message "No message" and source "unknown" |
| Logs.JsonPrimaryKeyWins | src/logs.rs:243-261 | `timestamp` and `message` win over their aliases when they hold strings |
| Logs.JsonObjectExample | src/logs.rs:228-276 | a single object with all four primary fields gives back exactly those fields |
| Logs.CandidatePaths | src/logs.rs:129-146 | seven candidate paths, the caller's path first |
| Logs.FirstExisting | src/logs.rs:148-162 | the first candidate that exists is taken; none exactly when none exists |
| Logs.FallbackText | src/logs.rs:164-181 | the scan takes the first `.txt`/`.log` entry of the component directory that can be read; none when no such entry is readable |
| Logs.LoadedLogs | src/logs.rs:119-202 | definition without a contract of its own: the candidate paths, the fallback scan and the sort; LoadComponentLogs is proved equal to it and LoadedLogsSorted states the order |
| Logs.LoadComponentLogs | src/logs.rs:119-201 | the loading loop, the fallback scan and the sort give the logs the resolution function describes |
| Logs.LoadPodLogs | src/logs.rs:79-83 | pod logs are component logs of type "Pod" with first path `output/<ns>/<pod>/logs.txt` |
| Logs.LoadedLogsSorted | src/logs.rs:183-199 | the loaded entries are a permutation of those read, sorted by non-increasing timestamp string, and `total_entries` is their number |
| Logs.NothingFoundIsEmpty | src/logs.rs:165-200 | with no candidate and no readable log file, loading succeeds with no entries |
| Logs.FallbackNone | src/logs.rs:167-180 | when no `.txt`/`.log` entry can be read, the scan finds nothing |
| Logs.FirstExistingOnlyReadsExisting | src/logs.rs:148-149 | which candidate is taken depends only on which paths exist |
| Logs.CandidateBeatsScan | src/logs.rs:148-165 | with a candidate present, the directory listings play no part |
| Logs.ScanReadsText | src/logs.rs:165-181 | without a candidate, whatever is found is read as text (never as JSON) and loading succeeds |
| Logs.LoadErrorsNeedCandidate | src/logs.rs:150-154 | loading fails only when some candidate path exists (its text then cannot be read or is a JSON scalar) |
| Logs.FilterByLevel | src/logs.rs:450-460 | an order-preserving subsequence holding exactly the entries at or above the minimum priority, each as many times as it occurs |
| Logs.FilterByDebugKeepsAll | src/logs.rs:450-460 | the Debug minimum keeps every entry |
| Logs.ErrorFilterMatchesCount | src/logs.rs:450-489 | filtering at Error keeps as many entries as the error counter counts |
| Logs.SearchLogs | src/logs.rs:462-472 | an order-preserving subsequence holding exactly the entries whose lower-cased message or source contains the lower-cased query, each as many times as it occurs |
| Logs.SearchIgnoresQueryCase | src/logs.rs:462-463 | the query's case does not matter |
| Logs.EmptySearchFindsAll | src/logs.rs:462-472 | the empty query finds every entry |
| Logs.CountsWithinEntries | src/logs.rs:484-496 | errors and warnings together never outnumber the entries |
| Logs.RecentLogs | src/logs.rs:498-501 | a prefix of the entries of length min(count, len) |
| Kubernetes.AsU32 | src/kubernetes.rs:160-162 | `as u32` keeps values below 2^32 and always lands below 2^32 |
| Kubernetes.FindReady | src/kubernetes.rs:109-111 | the first condition whose type is "Ready"; none exactly when no condition has that type |
| Kubernetes.PodFromJson | src/kubernetes.rs:105-139 | a pod record is kept iff its name and phase are strings, and carries them |
| Kubernetes.DeploymentFromJson | src/kubernetes.rs:158-180 | a deployment record is kept iff its name is a string; replica counts are 32-bit |
| Kubernetes.ReadyFromFirstReadyCondition | src/kubernetes.rs:109-114 | a pod is ready iff its first Ready condition has status "True" |
| Kubernetes.NotReadyWithoutCondition | src/kubernetes.rs:109-114 | with no conditions array, or no Ready condition in it, a pod is not ready |
| Kubernetes.FirstContainerOnly | src/kubernetes.rs:119-123 | the restart count is that of the first container status, in decimal |
| Kubernetes.MissingReplicasAreZero | src/kubernetes.rs:159-162 | missing replica counts read as 0 |
| Kubernetes.PodsFrom | src/kubernetes.rs:103-142 | no more pods than elements |
| Kubernetes.DeploymentsFrom | src/kubernetes.rs:156-183 | no more deployments than elements |
| Kubernetes.PodsFromElements | src/kubernetes.rs:103-142 | every pod kept comes from an element, and every element with string name and phase is kept |
| Kubernetes.DeploymentsFromElements | src/kubernetes.rs:156-183 | every deployment kept comes from an element, and every element with a string name is kept |
| Kubernetes.LoadPods | src/kubernetes.rs:95-146 | the loop gives the pods of the file, none when it is missing, or the read/parse error |
| Kubernetes.LoadDeployments | src/kubernetes.rs:148-187 | the same for deployments |
| Kubernetes.LoadErrorsNeedFile | src/kubernetes.rs:99-186 | loading fails only for an existing file; a missing file gives an empty list |
| Kubernetes.Namespaces | src/kubernetes.rs:66-93 | definition without a contract of its own: the missing-output error, or one row per directory sorted by name; LoadNamespaces is proved equal to it and NamespacesSortedAndCounted states its properties |
| Kubernetes.LoadNamespaces | src/kubernetes.rs:66-93 | the loop and sort give exactly `Kubernetes.Namespaces` |
| Kubernetes.NamespaceRowsFaithful | src/kubernetes.rs:74-89 | one row per directory of `output`, counting its pods and deployments, with load failures counted as empty |
| Kubernetes.NamespacesSortedAndCounted | src/kubernetes.rs:69-92 | a missing `output` gives "Output directory not found"; otherwise the rows are sorted by name, one per directory row, each a directory of `output` with its pod and deployment counts |
| Kubernetes.NamespaceIssues | src/kubernetes.rs:200-239 | the issue scan of a namespace yields the pod issues, then the deployment issues |
| Kubernetes.AnalyzeCluster | src/kubernetes.rs:189-259 | the loop with its running totals gives exactly `Kubernetes.Analysis`: the namespace-list error, or one analysis per namespace with the totals |
| Kubernetes.Analyses | src/kubernetes.rs:196-251 | one analysis per namespace |
| Kubernetes.PodIssues | src/kubernetes.rs:203-217 | definition without a contract of its own: one Warning per pod that is not ready or not Running, in order; PodIssueRule and PodIssuesBound state its properties |
| Kubernetes.DeploymentIssues | src/kubernetes.rs:219-240 | definition without a contract of its own: one issue per deployment whose ready and desired counts differ; DeploymentIssueRule and DeploymentIssuesBound state its properties |
| Kubernetes.PodIssueRule | src/kubernetes.rs:204-216 | a pod gives exactly one Warning issue naming it iff it is not ready or not running |
| Kubernetes.DeploymentIssueRule | src/kubernetes.rs:220-238 | a deployment gives one issue iff ready differs from desired, Critical iff none is ready |
| Kubernetes.DeploymentIssueExamples | src/kubernetes.rs:220-238 | 0/3 is Critical, 2/3 and 4/3 are Warnings, 3/3 and 0/0 raise nothing |
| Kubernetes.PodIssuesBound | src/kubernetes.rs:204-216 | no more pod issues than pods |
| Kubernetes.DeploymentIssuesBound | src/kubernetes.rs:220-239 | no more deployment issues than deployments |
| Kubernetes.NamespaceIssuesBound | src/kubernetes.rs:197-243 | a namespace never has more issues than pods and deployments together |
| Kubernetes.AnalyzeNamespace | src/kubernetes.rs:196-250 | definition without a contract of its own: the namespace's pods and deployments, load failures read as empty, with pod issues then deployment issues; AnalysesFaithful and NamespaceIssuesBound state its properties |
| Kubernetes.AnalysesFaithful | src/kubernetes.rs:196-251 | the i-th analysis is that of the i-th namespace, with load failures read as empty |
| Kubernetes.TotalIssuesBound | src/kubernetes.rs:241-243 | total issues never exceed total pods plus deployments |
| Kubernetes.AnalysisShape | src/kubernetes.rs:189-258 | one analysis per namespace, in the namespace list's order, each analysed on its own; total issues never exceed total pods plus deployments |
| Errors.DisplayIsExit | src/error.rs:13-22 | only the exit request displays as "exit" |
| Snapshot.StemAndExtension | src/ui/logs_list.rs:75-78 | stem, '.', extension give back the file name |
| Navigation.NextIndex | src/app.rs:69-80 | definition without a contract of its own: the next row, wrapping; MoveStaysInRange, PreviousUndoesNext and NextTimesWraps state its properties |
| Navigation.PrevIndex | src/app.rs:82-93 | definition without a contract of its own: the previous row, wrapping; MoveStaysInRange and PreviousUndoesNext state its properties |
| Navigation.MoveStaysInRange | src/app.rs:69-93 | on an empty list a move changes nothing; otherwise it lands on a row |
| Navigation.PreviousUndoesNext | src/app.rs:69-93 | previous undoes next, and next undoes previous |
| Navigation.NextTimesWraps | src/app.rs:69-80 | n steps forward from row i land on (i + n) mod len |
| Navigation.FullCycleReturns | src/app.rs:69-80 | len steps forward return to the same row |
| Navigation.PodRefs | src/app.rs:365-367 | one (name, "Pod") pair per pod |
| Navigation.DeploymentRefs | src/app.rs:369-371 | one (name, "Deployment") pair per deployment |
| Navigation.Components | src/app.rs:360-372 | definition without a contract of its own: per namespace its pods then its deployments as (name, type); ComponentsCounted and CollectComponents state its properties |
| Navigation.ComponentsCounted | src/app.rs:360-372 | the flattened component list is exactly as long as the analysis list length, and holds only pods and deployments |
| Navigation.LogDirs | src/app.rs:392-412 | the names of the subdirectories holding logs.txt, log.txt or logs.json |
| Navigation.App.constructor | src/app.rs:41-67 | the initial state around the loaded namespaces |
| Navigation.App.New | src/app.rs:41-67 | creation fails exactly when the namespaces cannot be loaded |
| Navigation.App.CountComponents | src/app.rs:237-242 | the counting loop gives pods plus deployments over all namespaces |
| Navigation.App.ScanLogComponents | src/app.rs:389-412 | the directory scan gives the log-holding components |
| Navigation.ListLength | src/app.rs:228-275 | definition without a contract of its own: the number of rows on each screen; GetListLength is proved equal to it |
| Navigation.App.GetListLength | src/app.rs:228-275 | the per-screen list length: 5, namespaces, 3, pods, deployments, components, log directories, else 0 |
| Navigation.App.CountLogComponents | src/app.rs:247-272 | the count is the number of subdirectories of the namespace directory holding logs.txt, log.txt or logs.json, and 0 when the directory cannot be listed |
| Navigation.AfterNext | src/app.rs:69-80 | definition without a contract of its own: only the list selection moves, by NextIndex over ListLength; App.Next is proved to perform it |
| Navigation.AfterPrevious | src/app.rs:82-93 | definition without a contract of its own: only the list selection moves, by PrevIndex over ListLength; App.Previous is proved to perform it |
| Navigation.App.Next | src/app.rs:69-80 | the state after one step forward |
| Navigation.App.Previous | src/app.rs:82-93 | the state after one step back |
| Navigation.App.ScrollLogsDown | src/app.rs:95-108 | the log scroll moves forward, wrapping, over the loaded entries |
| Navigation.App.ScrollLogsUp | src/app.rs:110-123 | the log scroll moves back, wrapping |
| Navigation.App.ScrollDetailsDown | src/app.rs:125-143 | the details scroll moves forward over the analysis component count |
| Navigation.App.ScrollDetailsUp | src/app.rs:145-162 | the details scroll moves back |
| Navigation.App.ToggleLogFilter | src/app.rs:164-174 | the same filter clears it, another sets it; the log scroll goes to 0 |
| Navigation.AfterBack | src/app.rs:189-226 | definition without a contract of its own: the screen transition of `back` with all selections reset; BackTable states it |
| Navigation.App.Back | src/app.rs:189-226 | the state the back transition gives |
| Navigation.AfterSelect | src/app.rs:176-187 | definition without a contract of its own: Enter dispatched on the screen; SelectFrame and SelectErrors state its properties |
| Navigation.App.Select | src/app.rs:176-187 | Enter dispatched on the current screen |
| Navigation.App.HandleMainMenuSelection | src/app.rs:277-296 | 0 analyses and shows the analysis, 1 the namespaces, 2 the easter egg, 4 the exit error |
| Navigation.App.HandleNamespaceSelection | src/app.rs:298-312 | the namespace is recorded, then its pods and deployments are loaded |
| Navigation.App.HandleNamespaceDetailsSelection | src/app.rs:314-333 | rows 0, 1, 2 open pods, deployments, logs |
| Navigation.App.HandlePodsListSelection | src/app.rs:335-344 | an in-range pod is recorded as (name, "Pod") and its details shown |
| Navigation.App.HandleDeploymentsListSelection | src/app.rs:346-355 | an in-range deployment is recorded as (name, "Deployment") and its details shown |
| Navigation.App.CollectComponents | src/app.rs:360-372 | the collection loop gives pods then deployments, per namespace in order |
| Navigation.App.PushPods | src/app.rs:365-367 | the pod loop appends one pair per pod |
| Navigation.App.PushDeployments | src/app.rs:369-371 | the deployment loop appends one pair per deployment |
| Navigation.App.HandleClusterAnalysisSelection | src/app.rs:357-383 | an in-range row records that component and opens its details |
| Navigation.App.HandleLogsListSelection | src/app.rs:385-436 | an in-range log directory is recorded as a "Component" and its logs are loaded and shown |
| Navigation.BackTable | src/app.rs:189-226 | the back table; from component details a recorded "Pod" goes to the pods list, "Deployment" to the deployments list, any other type or none to the cluster analysis; all three selections go to row 0 |
| Navigation.BackFromAnalysisPick | src/app.rs:201-212 | back from a component picked on the analysis screen goes to the pods or deployments list |
| Navigation.AnalysisSelectionInRange | src/app.rs:374-379 | Enter on the analysis opens details iff the selection is below the list length, recording that component |
| Navigation.MainMenuSelectionFrame | src/app.rs:277-296 | the main menu's Enter changes only the screen, the analysis and the easter egg flag |
| Navigation.NamespaceSelectionFrame | src/app.rs:298-312 | Enter on a namespace changes only the recorded namespace, the lists and the screen |
| Navigation.LogsListSelectionFrame | src/app.rs:385-436 | Enter on a log directory changes only the recorded component, the logs and the screen |
| Navigation.SelectFrame | src/app.rs:277-436 | Enter never moves a selection or a scroll position |
| Navigation.SelectErrors | src/app.rs:277-306 | the exit error comes exactly from item 4 of the main menu; errors arise only on the main menu and the namespace list |
| Navigation.NamespaceRecordedBeforeLoad | src/app.rs:298-312 | the namespace is recorded even when loading fails, and the screen changes only on success |
| Navigation.LogsListRecordedBeforeLoad | src/app.rs:414-431 | the component is recorded even when its logs fail to load; the viewer opens only on success |
| Navigation.ToggleTwice | src/app.rs:164-174 | toggling the same filter twice restores it, with the scroll at 0 |
| Navigation.NextPreviousInRange | src/app.rs:69-93 | on a non-empty list Up and Down keep the selection on a row |
| Navigation.BackKeepsConsistent | src/app.rs:189-226 | back keeps the consistency invariant |
| Navigation.SelectKeepsConsistent | src/app.rs:176-436 | Enter keeps the consistency invariant |
| Navigation.MovesKeepConsistent | src/app.rs:69-174 | moves, scrolls and filter toggles keep the consistency invariant |
| Navigation.InitialConsistent | src/app.rs:41-67 | the initial state is consistent and its menu has 5 rows |
| KeyDispatch.FindComponentNamespace | src/main.rs:108-117 | the first analysed namespace holding the component by its recorded type; none when no namespace holds it |
| KeyDispatch.FindNamespace | src/main.rs:108-131 | the scan stops at that first namespace |
| KeyDispatch.OpenLogs | src/main.rs:102-136 | `l` loads that namespace's pod logs and shows them, or changes nothing |
| KeyDispatch.ShowLogs | src/main.rs:119-129 | on success the logs, the viewer and the namespace are set; on failure nothing changes |
| KeyDispatch.KeyStep | src/main.rs:64-182 | definition without a contract of its own: one pass of the event loop for one key; QuitRule, FilterKeys and KeyStepKeepsConsistent state its properties |
| KeyDispatch.HandleKey | src/main.rs:69-177 | one key is the transition the step function gives |
| KeyDispatch.Run | src/main.rs:65-179 | the number of events handled never exceeds the number given |
| KeyDispatch.RunApp | src/main.rs:64-182 | the loop handles events in order until one ends it |
| KeyDispatch.QuitRule | src/main.rs:70-101 | the loop ends on q, on Esc only on the main menu, and on Enter only for the exit error |
| KeyDispatch.CycleFilter | src/main.rs:138-150 | definition without a contract of its own: the `f` key's filter step; FilterCycle states the cycle |
| KeyDispatch.FilterCycle | src/main.rs:138-149 | f walks through error, warning, info, debug and back to no filter |
| KeyDispatch.FilterKeys | src/main.rs:138-175 | off the viewer the filter letters do nothing; a clears without resetting the scroll; e/w/i/d toggle |
| KeyDispatch.OpenLogsFirstMatch | src/main.rs:104-131 | a successful l shows the logs of the first namespace holding the component, which becomes selected |
| KeyDispatch.KeyStepKeepsConsistent | src/main.rs:69-177 | every key keeps the consistency invariant |
| KeyDispatch.RunKeepsConsistent | src/main.rs:65-179 | so does every sequence of keys |
| KeyDispatch.ReachableConsistent | src/main.rs:64-182 | every state reachable from the start is consistent |
| ClusterView.PodLines | src/ui/cluster_analysis.rs:52-63 | one row per pod |
| ClusterView.DeploymentLines | src/ui/cluster_analysis.rs:66-83 | one row per deployment |
| ClusterView.PodLinesAt | src/ui/cluster_analysis.rs:52-63 | row i is that of pod i |
| ClusterView.DeploymentLinesAt | src/ui/cluster_analysis.rs:66-83 | row i is that of deployment i |
| ClusterView.BuildItems | src/ui/cluster_analysis.rs:35-98 | the loops and the final pop give the display rows, and the pairs the Enter handler flattens |
| ClusterView.PushBlock | src/ui/cluster_analysis.rs:39-89 | one namespace appends a header, its pods, its deployments and a separator when it has any |
| ClusterView.PushPods | src/ui/cluster_analysis.rs:52-63 | the pod loop appends rows and pairs |
| ClusterView.PushDeployments | src/ui/cluster_analysis.rs:66-83 | the deployment loop appends rows and pairs |
| ClusterView.CalculateSelectableIndex | src/ui/cluster_analysis.rs:163-177 | the number of selectable rows before the target, or 0 past the end |
| ClusterView.NamespaceBlockRefs | src/ui/cluster_analysis.rs:39-89 | the selectable rows of a namespace stand for its pods then deployments |
| ClusterView.RawRowsRefs | src/ui/cluster_analysis.rs:39-89 | the selectable rows stand for the flattened components |
| ClusterView.SelectableRowsAreComponents | src/ui/cluster_analysis.rs:52-98 | after the pop, the selectable rows stand, in order, for exactly the components Enter picks from |
| ClusterView.CountIsRefs | src/ui/cluster_analysis.rs:163-177 | the count of selectable rows is the number of their components |
| ClusterView.SelectableCountIsListLength | src/ui/cluster_analysis.rs:52-83 | there are as many selectable rows as Up/Down move through |
| ClusterView.BlankFollowsComponent | src/ui/cluster_analysis.rs:85-88 | every separator follows a pod or deployment row |
| ClusterView.NoTrailingBlank | src/ui/cluster_analysis.rs:91-98 | the list never ends with a separator |
| ClusterView.CountPrefixGrows | src/ui/cluster_analysis.rs:163-177 | each selectable row raises the count of those after it |
| ClusterView.FindSelectable | src/ui/cluster_analysis.rs:163-177 | every index below the count has its selectable row |
| ClusterView.HighlightUnique | src/ui/cluster_analysis.rs:101-122 | exactly one row is highlighted when the selection (None as 0) is below the count, none otherwise |
| ClusterView.HighlightIsPick | src/ui/cluster_analysis.rs:101-122 | the highlighted row stands for the component Enter picks |
| ClusterView.RefAtIndex | src/ui/cluster_analysis.rs:110-113 | a selectable row's index names its own component |
| LogsViewer.FilterLevel | src/ui/logs_viewer.rs:134-157 | definition without a contract of its own: the level each of the four filter names selects; FilterKeysSelectLevels states that it agrees with the level parser |
| LogsViewer.DisplayedEntries | src/ui/logs_viewer.rs:131-160 | definition without a contract of its own: the entries of the filter's level, or all; ExactLevelFilter and UnknownFilterShowsAll state its properties |
| LogsViewer.ExactLevelFilter | src/ui/logs_viewer.rs:134-157 | a level filter keeps, in order, exactly the entries of that level, each as many times as it occurs |
| LogsViewer.UnknownFilterShowsAll | src/ui/logs_viewer.rs:156-158 | no filter, or an unknown name, lists every entry |
| LogsViewer.FilterKeysSelectLevels | src/ui/logs_viewer.rs:134-155 | each of e, w, i, d names a level the list selects, the one that name reads as |
| LogsViewer.ErrorListMatchesGauge | src/ui/logs_viewer.rs:89-140 | the error filter lists as many entries as the error gauge counts |
| LogsViewer.InfoCount | src/ui/logs_viewer.rs:118 | definition without a contract of its own: total minus errors minus warnings; InfoCountIsInfoAndDebug and LoadedInfoCount state its meaning and that it does not underflow |
| LogsViewer.InfoCountIsInfoAndDebug | src/ui/logs_viewer.rs:89-118 | with the load-time total, `info_count` does not underflow and counts the info and debug entries |
| LogsViewer.LoadedInfoCount | src/ui/logs_viewer.rs:118 | for loaded logs the info gauge never underflows |
| LogsViewer.TruncateTimestamp | src/ui/logs_viewer.rs:227-240 | definition without a contract of its own: the shortened timestamp; TimestampBounded, TimestampIdempotent, TimestampIso and TimestampWithoutT state its properties |
| LogsViewer.TimestampBounded | src/ui/logs_viewer.rs:227-240 | short timestamps are kept; none shown exceeds 19 characters |
| LogsViewer.TimestampIdempotent | src/ui/logs_viewer.rs:227-240 | shortening twice is shortening once |
| LogsViewer.TimestampIso | src/ui/logs_viewer.rs:229-233 | `<date>T<time><rest>` shows as `<date> <time>` |
| LogsViewer.TimestampWithoutT | src/ui/logs_viewer.rs:234-235 | without a 'T' a long timestamp keeps its first 19 characters |
| LogsViewer.TruncateMessage | src/ui/logs_viewer.rs:242-248 | at most maxLen characters; short messages kept; long ones are their prefix plus "..." of exactly maxLen |
| LogsViewer.MessageIdempotent | src/ui/logs_viewer.rs:242-248 | truncating twice is truncating once |
| LogsViewer.EntryLine | src/ui/logs_viewer.rs:180-186 | the shown timestamp fits 19 and the message 100 characters |
| LogsList.ComponentType | src/ui/logs_list.rs:137-155 | definition without a contract of its own: the first matching name test decides; PodNames, ComponentTypeRange and PodTestFirst state its properties |
| LogsList.PodNames | src/ui/logs_list.rs:138-141 | "Pod" iff the name contains "pod" or has two or more dashes |
| LogsList.ComponentTypeRange | src/ui/logs_list.rs:137-154 | one of the seven names, "Component" iff no pattern matches |
| LogsList.PodTestFirst | src/ui/logs_list.rs:138-143 | a name mentioning "pod" is a pod whatever else it mentions |
| LogsList.DashesContainDash | src/ui/logs_list.rs:139-140 | two dashes imply a dash, so the extra test adds nothing |
| LogsList.LogSources | src/ui/logs_list.rs:35-99 | definition without a contract of its own: directory rows, else file rows, else the help text; BuildLogSources is proved equal to it, and HelpOnlyWhenNothingFound and DirRowsAreLogDirs state its properties |
| LogsList.BuildLogSources | src/ui/logs_list.rs:35-99 | the scans and fallbacks give exactly `LogsList.LogSources` |
| LogsList.ScanDirectories | src/ui/logs_list.rs:41-67 | one component row per log-holding subdirectory, in order |
| LogsList.ScanFiles | src/ui/logs_list.rs:71-85 | one file row per entry with extension txt, log or json, named by its stem |
| LogsList.DirRowsAreLogDirs | src/ui/logs_list.rs:41-67 | the component rows are exactly the log directories Enter picks from |
| LogsList.ListedRowsArePickable | src/ui/logs_list.rs:41-67 | with log directories present, the list shows exactly those, in the order Up/Down count |
| LogsList.FileRowsOnlyAsFallback | src/ui/logs_list.rs:71-85 | file rows appear only when no directory holds logs, and then no component row appears |
| LogsList.FileRowsAreFiles | src/ui/logs_list.rs:71-85 | the fallback rows are all file rows |
| LogsList.DirRowsAreComponents | src/ui/logs_list.rs:41-67 | the first scan's rows are all component rows |
| LogsList.HelpOnlyWhenNothingFound | src/ui/logs_list.rs:89-99 | the list is never empty; help rows appear iff nothing was found, and are then all there is |
| LogsList.HelpNamesDirectory | src/ui/logs_list.rs:89-99 | the help names the checked directory exactly when a namespace is selected |
| ComponentDetails.PodDetailLines | src/ui/component_details.rs:155-239 | definition without a contract of its own: the line groups of the pod pane; CreatePodDetailLines is proved equal to it and PodHealthAgrees states its health part |
| ComponentDetails.CreatePodDetailLines | src/ui/component_details.rs:155-239 | the lines pushed group by group are exactly `ComponentDetails.PodDetailLines` |
| ComponentDetails.PodHealthAgrees | src/ui/component_details.rs:167-231 | healthy iff ready and running; one issue per failing condition; the status icon agrees |
| ComponentDetails.RestartIcon | src/ui/component_details.rs:195-198 | a printed restart count warns iff it parses as an i32 above zero |
| ComponentDetails.DeploymentHealth | src/ui/component_details.rs:311-327 | definition without a contract of its own: Healthy, ScaledToZero or Unhealthy; DeploymentHealthCases and ReplicaIconAgrees state its properties |
| ComponentDetails.DeploymentHealthCases | src/ui/component_details.rs:311-317 | healthy iff all desired replicas are ready and some are desired; scaled to zero iff none desired; unhealthy otherwise |
| ComponentDetails.ReplicaIconAgrees | src/ui/component_details.rs:253-318 | the replica icon shows the health verdict |
| ComponentDetails.OutageKinds | src/ui/component_details.rs:318-326 | an unhealthy deployment reports a complete outage iff none is ready, a partial one otherwise |
| ComponentDetails.ImageNameTag | src/ui/component_details.rs:293-301 | definition without a contract of its own: the text after the last '/' split at its first ':'; ImageNameTagParts and ImageNameTagOf state the round trip both ways |
| ComponentDetails.ImageNameTagParts | src/ui/component_details.rs:294-302 | the name has no ':' or '/', the tag no '/', and the image is `<path>/<name>:<tag>` |
| ComponentDetails.ImageNameTagOf | src/ui/component_details.rs:294-302 | every `<path>/<name>:<tag>` with such parts splits into that name and tag |
| ComponentDetails.NoSlashNoTag | src/ui/component_details.rs:294 | an image without '/' shows no name or tag |
| ComponentDetails.DeploymentDetailLines | src/ui/component_details.rs:241-338 | definition without a contract of its own: the line groups of the deployment pane; CreateDeploymentDetailLines is proved equal to it |
| ComponentDetails.CreateDeploymentDetailLines | src/ui/component_details.rs:241-338 | the lines pushed group by group are exactly `ComponentDetails.DeploymentDetailLines` |
| ComponentDetails.PushImageLines | src/ui/component_details.rs:290-305 | the image lines, with name and tag when they split off |
| ComponentDetails.Lookup | src/ui/component_details.rs:62-125 | definition without a contract of its own: the browsed namespace's list first, then the analysis; LoadedPodsFirst, AnalysisFallback and FoundWhenPresent state its properties |
| ComponentDetails.FirstNamed | src/ui/component_details.rs:64-103 | `find` by name: the first element with that name, or none when none has it |
| ComponentDetails.AnalysisMatch | src/ui/component_details.rs:73-124 | the first analysed namespace holding that name, with its element |
| ComponentDetails.SearchAnalysis | src/ui/component_details.rs:73-82 | the namespace loop returns that first match |
| ComponentDetails.DetailsView | src/ui/component_details.rs:12-60 | definition without a contract of its own: the pane for the selected component by its type; DrawComponentDetails, PodNotFound and PickedComponentFound state its properties |
| ComponentDetails.DrawComponentDetails | src/ui/component_details.rs:12-60 | the shown lines are those of the selection's lookup |
| ComponentDetails.LoadedPodsFirst | src/ui/component_details.rs:64-70 | a pod of the browsed namespace wins and is labelled with that namespace, or "unknown" |
| ComponentDetails.FirstNamedAt | src/ui/component_details.rs:64 | the first element with the name is the one found |
| ComponentDetails.AnalysisFallback | src/ui/component_details.rs:72-82 | otherwise the first analysed namespace holding the pod supplies it, with its own name |
| ComponentDetails.FirstMatchAt | src/ui/component_details.rs:73-81 | the first namespace holding the name gives the match |
| ComponentDetails.PodNotFound | src/ui/component_details.rs:84-93 | "not found" iff no loaded or analysed pod has the name |
| ComponentDetails.MatchIsMember | src/ui/component_details.rs:73-81 | a match is an element of an analysed namespace |
| ComponentDetails.ComponentOrigin | src/app.rs:360-372 | each flattened component names a pod or deployment of some analysed namespace |
| ComponentDetails.FoundWhenPresent | src/ui/component_details.rs:62-125 | an element present in the analysis is always found |
| ComponentDetails.PickedComponentFound | src/ui/component_details.rs:41-46 | a component picked on the analysis screen always shows its pod or deployment information |
| Strings.ToLower | src/logs.rs:463 | lower-casing keeps the length |
| Strings.LowerIgnoresCase | src/logs.rs:463 | lower-casing forgets case and is idempotent |
| Strings.IndexOf | src/logs.rs:367 | `find`: the first match, none when there is none |
| Strings.IndexOfChar | src/logs.rs:402-421 | `find` of a char: its first position |
| Strings.LastIndexOfChar | src/ui/component_details.rs:294 | `rfind`: the last position |
| Strings.SplitOnce | src/logs.rs:408-425 | `splitn(2, c)`: split at the first c, present iff c occurs |
| Strings.Trim | src/logs.rs:370 | `trim`: the result is a slice `s[i..j]` whose cut-off prefix and suffix are blank; it is empty iff `s` is blank, and otherwise has no whitespace at either end |
| Strings.Lines | src/logs.rs:281 | `lines`: no line holds a newline; none iff the text is empty |
| Strings.LinesRoundTrip | src/logs.rs:281 | for text without carriage returns, the lines joined with line feeds give back the text less one final line feed |
| Strings.ParseI32OfNat | src/ui/component_details.rs:196 | a printed natural parses as i32 iff it fits |
| Strings.LexLeTotal | src/kubernetes.rs:91 | string order is total |
| Strings.LexLeTrans | src/kubernetes.rs:91 | string order is transitive |
| Strings.LexLeAntisymmetric | src/kubernetes.rs:91 | string order is antisymmetric |
| Sorting.SortBy | src/logs.rs:186-192 | sorting is a permutation |
| Sorting.SortBySorted | src/logs.rs:186-192 | and its result is sorted by the key, ascending or descending |
| Seqs.FilterMultiplicity | src/logs.rs:456-459 | a filter keeps every copy of an element that meets the condition and no copy of one that does not |
| Seqs.FilterIsSubsequence | src/logs.rs:456-459 | a filter keeps an order-preserving subsequence |

## Left out

- Terminal setup, drawing, colours, icons and layout are not modelled.
- The warning printed to standard error when loading a component's logs fails (src/app.rs:426-429) is not modelled; the model keeps only that the screen and logs stay unchanged. Row and line text is abstracted to datatypes (`ClusterView.DisplayRow`, `ComponentDetails.DetailLine`, `LogsList.SourceRow`) that keep every value the text is built from.
- The event source (`event::read`) becomes a finite sequence of keys. The loop stops at a quit or when the keys run out.
- The startup check for `output` and the terminal teardown in `main` (src/main.rs:19-62) are not modelled.
- The presentation-only files src/ui/pods_list.rs, deployments_list.rs, namespace_details.rs, namespace_list.rs, main_menu.rs, capybara.rs and mod.rs are not part of this model.
- The real filesystem is replaced by a snapshot value.
  - Two reads of one directory (the list length, the log-source rows and the Enter scan) see the same listing.
  - The order of a listing is taken as given.
- JSON parsing itself is replaced by the snapshot's map from text to parsed value.
- `load_deployment_logs` and `load_service_logs` (src/logs.rs:85-117) are not modelled: nothing in the program calls them.
- `parse_timestamp` (src/logs.rs:204-215) always gives `None`, so the post-load sort is modelled as the stable sort by descending timestamp string.
- The sort is modelled as a function on sequences (insertion sort), not as an in-place sort.
- Floating point is left out.
  - The gauge ratios are not modelled.
  - The availability percentage is shown as the pair (ready, desired) it is computed from.
- Strings are sequences of characters.
  - Byte indexing and UTF-8 slicing panics are not modelled.
  - `to_lowercase` and `to_uppercase` map ASCII letters only.
- The `ListState` widgets are reduced to their selected index. The details scroll position is kept and updated, but the details drawing ignores it, as in the source.
- The "Current namespace" debug line keeps the selected namespace as an `Option` value rather than its `Debug` formatting.
- Only the `Display` of `AppError` is modelled. Its `From` conversions (src/error.rs:26-60) are trivial wrappers.
- Kubernetes.PodsFrom: states only the length bound. Membership in both directions is proved in `Kubernetes.PodsFromElements`.
- Kubernetes.DeploymentsFrom: states only the length bound. Membership in both directions is proved in `Kubernetes.DeploymentsFromElements`.
- Logs.ParseSingleJsonLog: states only that an entry is always produced. The field rules are proved in `Logs.JsonDefaults`, `Logs.JsonPrimaryKeyWins` and `Logs.JsonObjectExample`.
- Logs.BracketLevelFrom: the contract names only the tag. Which tag wins is proved in `Logs.BracketLevelFirstTag`. The message (the trimmed text after the tag) is stated only for a line that starts with `[ERROR]`, in `Logs.LeadingErrorTag`.
- LogsViewer.InfoCountIsInfoAndDebug: the source's `usize` subtraction is computed over unbounded integers. Non-negativity is proved only for entry counts recorded at load time, which covers every value the program builds.
- LogsViewer.TruncateMessage: requires `maxLen >= 3`, which the source's `max_len - 3` demands. The only call uses 100.
- ComponentDetails.RestartIcon: only restart strings printed from a number are covered; any other string reads as 0, as in the source.
- Strings.ToLower: the contract covers ASCII case mapping only.

## Notes

- The code tries seven candidate log paths, none of them `logs.json`.
- Re-tagging a deployment's logs as a pod's happens only in the unused `load_deployment_logs`.
- A log file whose whole text parses as a JSON scalar makes loading fail with "Invalid JSON log format".
