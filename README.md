# Agent services: text recovery, dependency gating and fan-out, in Dafny

This project models the sequential logic at the centre of the per-role agent
services (architecture, developer, qa, audit, documentation, business):

- **Text recovery.** The developer service uses these helpers to turn a
  language-model reply into something usable:
  - `clean_json_string` strips fences, trims, un-escapes and balances braces;
  - `parse_input`;
  - `extract_json`, an ordered chain: the whole text, then the first JSON block,
    then the longest brace candidate;
  - the classification of the payload in `process`.
- **The backup developer service.** It adds:
  - the truncation heuristic `is_likely_truncated`;
  - the bounded continuation loop `_recover_truncated_response`;
  - the `### File:` manifest parser inside `process`;
  - the per-file repair that follows it.
- **The base service.** It holds:
  - the table of which service depends on which;
  - the port choice;
  - the gate `_should_process_update`;
  - `process_update`, which turns the outcome of a service's work into exactly one
    broadcast record.
- **The communicator.** It holds:
  - the port table that names the services;
  - broadcast to every other service, with each failing peer isolated;
  - the watcher targets;
  - the `.json` filter on file events;
  - the callback registry;
  - the state file.

Files, one module each:

| file | module | what it holds |
|---|---|---|
| `pystr.dfy` | `PyStr` | Python's `str.count`, `replace`, `strip`, `rstrip`, `split`, `join`, `startswith` and `endswith`, with their non-overlapping and whitespace semantics |
| `json_value.dfy` | `JsonValue` | the `Json` value type, Python truthiness, `Option` and `Result`, and the reply of a model call |
| `developer_service.dfy` | `DeveloperService` | the cleaning, parsing and extraction helpers and `process` of the developer service |
| `developer_service_backup.dfy` | `DeveloperBackup` | truncation, recovery, the manifest parser, the repair loop and the response half of the backup `process` |
| `base_service.dfy` | `BaseService` | dependencies, ports, the gate and the `AgentService` class |
| `communicator.dfy` | `Communicator` | the `ServiceCommunicator` and `ServiceFileHandler` classes |

What the environment provides becomes a parameter or a field:

- `json.loads` is a function `string -> Option<Json>`. `None` means it raises.
- What the two `re.findall` scans return is taken as given candidate lists. Both
  patterns are raw strings with doubled backslashes, so they look for literal
  backslashes. The candidates are therefore not re-derived.
- The replies of the text-generation endpoint are a sequence of `Reply` values,
  consumed in call order. A call past the end fails.
- The disk is a map from path to `Document`. The existing directories are a set.
- A REST call is a `Post` recorded in the communicator's `sent` log and answered by a
  caller-supplied `net` function. `None` means the call raised.
- A callback handed to `asyncio.create_task` is a `Task` recorded in the `scheduled`
  log.
- The clock is a `now` parameter.

Where the system's specification and its code differ, the model follows the code:

- A broadcast goes to every other key of the port table, not only to dependent
  services. `business` is never a target, because it is not a key.
- `clean_json_string` neither removes trailing commas nor normalises the text beyond
  the fence removal, the strip and the two escape fixes.
- Fence lines inside a file body are dropped, not kept.
- The header path is `line[9:].strip()`. The slice starts one character early, on the
  space after the colon, and the strip removes that space.
- The `### File:` check comes before the fence check, so a header line is never
  mistaken for a fence line.

`clean_json_string` and `extract_json` are identical in
`services/developer_service.py` (lines 15-33 and 62-96) and
`services/developer_service_backup.py` (lines 36-54 and 86-120). They are modelled
once, in `DeveloperService`, and the backup module imports them.

## Model

| member | source | states |
|---|---|---|
| DeveloperService.CleanJsonString | services/developer_service.py:15-33 | a value that is not a string comes back unchanged; a string comes back as a string with no three-backtick fence and with at least as many `}` as `{` |
| DeveloperService.CleanTextBalances | services/developer_service.py:20-31 | the cleaned text is the stripped, unfenced, un-escaped text followed only by `}` characters; afterwards `count('{') <= count('}')`, with equality whenever anything was appended, and no fence remains |
| DeveloperService.BalancedCloses | services/developer_service.py:27-31 | the brace repair keeps the text as a prefix and appends only `}`, exactly the missing number (equal counts afterwards when it appends), keeps the `{` count and keeps fence-free text fence-free |
| DeveloperService.NormalizedIsFenceFree | services/developer_service.py:21-25 | after replacing "```json" and then "```" by nothing, stripping and un-escaping, no "```" is left anywhere in the text |
| DeveloperService.RemovalLeavesNoFence | services/developer_service.py:21 | removing every non-overlapping "```" left to right leaves no "```", including ones the removal itself could have joined |
| DeveloperService.UnescapeKeepsFenceFree | services/developer_service.py:25 | the two escape fixes cannot create a fence in fence-free text |
| DeveloperService.StripKeepsFenceFree | services/developer_service.py:22 | stripping keeps fence-free text fence-free |
| DeveloperService.ParseInput | services/developer_service.py:35-44 | a non-string input is returned as it is; a string that `json.loads` accepts yields its value; any other string is left to the URL and file branches, unchanged |
| DeveloperService.FirstParsed | services/developer_service.py:76-81 | the block chosen is the first, in order, whose cleaned form parses; every earlier one fails; none is chosen only when none parses |
| DeveloperService.Longest | services/developer_service.py:84-96 | the candidate kept parses and has maximal length among parseable ones, every earlier parseable candidate is strictly shorter (strict `>` keeps the earliest of equal length), and nothing is kept when no non-empty candidate parses |
| DeveloperService.FirstBlock | services/developer_service.py:76-81 | the block loop returns the value of the first block whose cleaned form parses, or nothing |
| DeveloperService.LongestObject | services/developer_service.py:84-96 | the longest-object loop returns the value of the candidate `Longest` picks, or `None` |
| DeveloperService.ExtractJson | services/developer_service.py:62-96 | `None` for a non-string, else the parse of the cleaned text, else the first parseable block, else the longest parseable candidate, else `None` |
| DeveloperService.BlockBeatsLongerObject | services/developer_service.py:67-81 | when the whole text does not parse and block `i` is the first parseable block, its value is returned whatever brace candidates exist |
| DeveloperService.Process | services/developer_service.py:98-122 | the result is always a success or an error status; input failures and falsy inputs give the matching error dict; a failed call gives an error with its message; success exactly when the extraction is truthy, then carrying it and `format_version` "1.0"; otherwise the error carries `raw_content` |
| DeveloperBackup.IsLikelyTruncated | services/developer_service_backup.py:122-150 | the empty text is never flagged; a non-empty text with an odd number of "```" always is; a flagged text with an even fence count has a non-blank character |
| DeveloperBackup.TruncationSignals | services/developer_service_backup.py:122-150 | the heuristic is true exactly for a non-empty text with an odd fence count, or whose last non-whitespace character is none of `} ] > ; " ' )`, or with more `{` than `}`; the newline entry of the set can never be the last character after `rstrip` |
| DeveloperBackup.AbruptEndIsTruncated | services/developer_service_backup.py:131-144 | a text with no backtick that ends in a letter, such as "...done", looks truncated |
| DeveloperBackup.ClosedObjectIsComplete | services/developer_service_backup.py:131-150 | "{}" does not look truncated |
| DeveloperBackup.NoFenceCountsZero | services/developer_service_backup.py:132 | fence-free text counts zero fence markers |
| DeveloperBackup.BraceRepairLooksComplete | services/developer_service_backup.py:49-52 | whenever `clean_json_string` had to append braces, the heuristic sees the result as complete |
| DeveloperBackup.ContinuedExtends | services/developer_service_backup.py:158-175 | each accepted continuation is appended after a newline, so the text always starts with the initial text and grows by at least one character per continuation |
| DeveloperBackup.RecoverTruncatedResponse | services/developer_service_backup.py:152-179 | at most `max_attempts` calls, each made on text that looks truncated; the result is the initial text with exactly the accepted replies appended on new lines; an empty, non-string or failed reply ends the loop keeping the text; the loop stops early once the text looks complete; a text that does not look truncated comes back unchanged after zero calls |
| DeveloperBackup.OutcomeCalls | services/developer_service_backup.py:159-177 | any outcome of the loop made exactly the number of calls the replies dictate |
| DeveloperBackup.RecoveryOutcomeUnique | services/developer_service_backup.py:159-177 | the returned text and the number of calls are determined by the replies |
| DeveloperBackup.Classified | services/developer_service_backup.py:240-253 | a line is a header exactly when it starts with `### File: `, and the header's path is `line[9:]` stripped; it is a skipped fence line exactly when it is no header and starts with "```"; every other line is text, kept as it is |
| DeveloperBackup.ParseManifest | services/developer_service_backup.py:235-260 | the loop computes the manifest records (the header loop, then the final flush) |
| DeveloperBackup.ManifestIsSections | services/developer_service_backup.py:235-260 | the loop's records are exactly one per header with a non-empty path and at least one kept line, in header order, its content being the following text lines up to the next header, joined with newlines |
| DeveloperBackup.RunIsSections | services/developer_service_backup.py:239-260 | from any parser state, the loop finishes the current file with the text lines up to the next header and then emits the files that follow |
| DeveloperBackup.SectionsSkipPreamble | services/developer_service_backup.py:252-253 | text before the first header belongs to no file |
| DeveloperBackup.PreambleIgnored | services/developer_service_backup.py:252-253 | putting header-free lines in front of a response does not change its files |
| DeveloperBackup.SectionsConcat | services/developer_service_backup.py:240-249 | files are emitted in header order: a response that continues at a header yields the files of its first part followed by those of the rest |
| DeveloperBackup.BodyStopsAtHeader | services/developer_service_backup.py:240-253 | a file's lines stop at the next header |
| DeveloperBackup.BodyLines | services/developer_service_backup.py:250-253 | a file's lines are text lines only: no header, no fence line, no newline inside |
| DeveloperBackup.ClassifiedLinesAreGood | services/developer_service_backup.py:239-253 | split lines hold no newline, header paths have no surrounding whitespace, and text lines are neither headers nor fence lines |
| DeveloperBackup.SectionsWellFormed | services/developer_service_backup.py:239-260 | every emitted file has a non-empty stripped path and at least one line, none a header, a fence line or holding a newline |
| DeveloperBackup.RecordOfSection | services/developer_service_backup.py:245 | a file's content, split on newlines, gives back exactly the lines collected for it |
| DeveloperBackup.ManifestWellFormed | services/developer_service_backup.py:239-260 | every record the parser emits has a non-empty path with no surrounding whitespace, and a content that splits into at least one line, none of them a header or a fence line |
| DeveloperBackup.UnfenceKeepsInnerLines | services/developer_service_backup.py:283-284 | a reply whose stripped form starts and ends with "```" and has three or more lines keeps exactly its inner lines; such a reply of one or two lines, for example "```{}```", becomes the empty string, so nothing but a newline is appended; any other reply is kept whole |
| DeveloperBackup.RepairedContent | services/developer_service_backup.py:270-288 | a file's content only ever grows, and changes exactly when it looks truncated and the reply is a non-empty string |
| DeveloperBackup.RepairFiles | services/developer_service_backup.py:270-288 | one call per file that looks truncated, in file order; each file keeps its path and gets the content `RepairedContent` gives for its own reply, in place |
| DeveloperBackup.ProcessResponse | services/developer_service_backup.py:228-288 | after recovery, no files gives the error carrying the raw text; otherwise one record per manifest file, same paths in the same order, and each content is exactly the parsed one repaired with the reply of the call that follows the recovery's calls and the repair calls for the files before it |
| BaseService.Upstreams | services/base_service.py:23-29 | a role has dependencies exactly when it has an entry in the table (`business` has none); every dependency is a role of the system other than the role itself |
| BaseService.UpstreamIsEarlier | services/base_service.py:23-29 | every dependency is a role that comes strictly earlier in the order business, architecture, developer, qa, audit, documentation |
| BaseService.NoSelfDependency | services/base_service.py:23-29 | no service depends on itself |
| BaseService.ChainDescends | services/base_service.py:23-29 | along a chain of dependencies the rank strictly falls |
| BaseService.DependenciesAcyclic | services/base_service.py:23-29 | a chain of dependencies never returns to where it started |
| BaseService.DocumentationDependsOnAll | services/base_service.py:28 | documentation depends on every other role |
| BaseService.Port | services/base_service.py:32-44 | a role of the port table gets the port its entry names; any other role gets 5000 |
| BaseService.PortChoice | services/base_service.py:31-45 | the services of the table listen on distinct ports from 5001 to 5005; any other role, business among them, on 5000 |
| BaseService.ShouldProcessUpdate | services/base_service.py:160-168 | a payload that is not a dict raises; a missing or empty source is rejected; otherwise it is accepted exactly when the source is one of the service's dependencies |
| BaseService.GateExamples | services/base_service.py:23-29 | qa accepts only developer, audit accepts developer and qa, and business, which has no entry, accepts nothing |
| BaseService.Broadcasted | services/base_service.py:170-192 | the one record broadcast names the service as source; it is an update carrying the result exactly when processing and saving both succeed, otherwise an error carrying the first exception's message |
| BaseService.NoSelfProcessing | services/base_service.py:160-192 | a service never processes a record it broadcast itself |
| BaseService.StateRecord | services/base_service.py:228-233 | the saved state always has status "completed" and carries the result and the save time |
| BaseService.AgentService.constructor | services/base_service.py:15-49 | the output directory is created; the communicator runs on the role's port with the two handlers registered, one per list |
| BaseService.AgentService.SaveArtifacts | services/base_service.py:221-233 | the result file is written, then the state file, and loading the state afterwards gives the state record back |
| BaseService.AgentService.ProcessUpdate | services/base_service.py:170-192 | exactly one record is broadcast to every peer, and artifacts are saved only on success; nothing escapes |
| BaseService.AgentService.HandleFileUpdate | services/base_service.py:142-149 | the update is processed exactly when the gate accepts it, otherwise nothing changes |
| BaseService.AgentService.HandleNotification | services/base_service.py:151-158 | the same gate and the same effect as the file path, so a payload gets the same decision either way |
| Communicator.LookupKnown | services/communicator.py:82-86 | a service has a port exactly when it is a key of the table, and the port is that entry's |
| Communicator.OthersMembers | services/communicator.py:96-100 | the loop's targets are exactly the other names, in order, without repeats |
| Communicator.PeersExactly | services/communicator.py:26-32 | the targets are every other key of the port table, each once, four of them for a service of the table; business is never one |
| Communicator.NotificationsOnePerName | services/communicator.py:80-94 | notifying known services in turn makes exactly one post each, in order, at the table's port |
| Communicator.BroadcastReachesEveryPeer | services/communicator.py:96-100 | a broadcast posts once to each other service, in table order, at its port, the failing ones included; never to itself or to business |
| Communicator.WatchesExactly | services/communicator.py:52-65 | observers are added exactly for the other names whose directory exists, each watching that directory |
| Communicator.WatchedArePeers | services/communicator.py:52-65 | from no observers, only other services of the port table are watched: never the service itself, never business |
| Communicator.Tasks | services/communicator.py:75-76 | handing a value to the callbacks schedules each callback once, in registration order |
| Communicator.ServiceCommunicator.constructor | services/communicator.py:14-38 | a communicator starts with no observers, empty callback lists and the port table |
| Communicator.ServiceCommunicator.Targets | services/communicator.py:96-100 | the broadcast targets are exactly the keys of the port table other than the service itself, with no repeats when the table has none; for the port table they are `Peers` |
| Communicator.ServiceCommunicator.SetupWatchers | services/communicator.py:52-65 | the watcher loop adds exactly the observers `Watches` gives |
| Communicator.ServiceCommunicator.FileChangeTasks | services/communicator.py:67-78 | a change to a `.json` file that loads schedules every file-change callback once with its value, in order; any other path, or a load failure, schedules none |
| Communicator.ServiceCommunicator.HandleFileChange | services/communicator.py:67-78 | the handler schedules exactly those tasks and nothing else changes |
| Communicator.ServiceCommunicator.NotifyService | services/communicator.py:80-94 | an unknown service gets nothing and yields `None`; a known one gets one post at its port, with its reply, or `None` when the call raised |
| Communicator.ServiceCommunicator.BroadcastUpdate | services/communicator.py:96-100 | one notification per other service of the table, in table order, whatever the replies |
| Communicator.ServiceCommunicator.OnFileChanged | services/communicator.py:102-104 | registration appends to the file-change list only |
| Communicator.ServiceCommunicator.OnNotification | services/communicator.py:106-108 | registration appends to the notification list only |
| Communicator.ServiceCommunicator.HandleNotification | services/communicator.py:110-118 | every notification callback is scheduled once, in order, and the reply is `{"status": "ok"}` |
| Communicator.ServiceCommunicator.SaveState | services/communicator.py:143-147 | the state file is overwritten, and loading afterwards gives the state back |
| Communicator.ServiceCommunicator.LoadState | services/communicator.py:149-155 | no state file gives `None`; a state file gives its value, or the exception a malformed one raises |
| Communicator.ServiceFileHandler.constructor | services/communicator.py:158-160 | the handler keeps the directory it watches and the communicator whose file-change handler it calls |
| Communicator.ServiceFileHandler.OnModified | services/communicator.py:162-165 | a directory event is ignored; any other goes to the file-change handler |
| Communicator.ServiceFileHandler.OnCreated | services/communicator.py:167-170 | a directory event is ignored; any other goes to the file-change handler |

## Left out

- Network I/O to the model endpoint (`_call_llm_api`, services/base_service.py:101-140) is not modelled. This covers the streaming, the 30-second timeout and the envelope decoding. A call is one `Reply` taken from a caller-supplied sequence.
- The aiohttp server (`start`, `handle_status`, `handle_artifacts`) and the URL fetch of `parse_input` are network I/O. The URL and file branches of `parse_input` are folded into one `fetched` parameter of `Process`.
- The watchdog threads and `observer.start()` are not modelled. An observer is represented by the directory it watches.
- `_handle_file_change` runs on the watchdog thread. There `asyncio.create_task` has no running event loop, raises, and the error is caught and printed. The model records the tasks the code asks for as scheduled and does not model that thread-level failure.
- `await request.json()` in `handle_notification` is not modelled. The notification body is a parameter, and a malformed request body is left out.
- The prompt text, `load_prompt` and the `messages` passed to the model are not modelled. They only shape the request.
- The file-saving loop of the backup `process` (services/developer_service_backup.py:291-298), `save_implementation_files` and its final status dict are filesystem writes. `ProcessResponse` stops at the repaired records.
- The backup `parse_input` (services/developer_service_backup.py:56-84) is not modelled. It also passes dicts through and returns `None` for other non-strings.
- The backup `process` before the first reply (input parsing and the first call) and its outer exception handler are not modelled. `ProcessResponse` starts from the first reply's text.
- `IsLikelyTruncated` takes a `string`. The source's `isinstance` check returns False for a non-string, and a non-string never reaches it here: a non-string reply is not `Accepted`.
- `AgentService.SaveArtifacts` and `ProcessUpdate`: a failure of `save_artifacts` is modelled as happening before anything is written. A failure after the result file but before the state file is not distinguished.
- `SaveState` and `LoadState` assume `json.dump` followed by `json.load` gives the value back. Tuples and non-string dict keys, which this round trip changes, are not modelled, and neither is a directory at the state path. `SaveState` always succeeds: when the directory `projects/<project>/<service>` is missing, `open` raises FileNotFoundError in the source, and the model does not capture that. Its only caller, `save_artifacts`, runs after the constructor has created that directory.
- `JNum` holds an `int`, so JSON floats cannot be represented. No modelled behaviour depends on a float.
- The `process` methods of the individual services are parameters of `ProcessUpdate` (what they returned or raised). They are LLM calls, and their artifact rendering is templated output.
- `_load_config`, `start_service`, the orchestrator package and the runner scripts are environment access, a sleep loop and glue code.
- Timestamps (`datetime.now()`) are the `now` parameter.
- Console output (`print`) is left out.
- Dict key order in the records built is not modelled. A dict is a map.
