# AutomatedAITest automation runner — a Dafny model

This project models `AutomatedAITest/automate_test.py`. That script drives one
automated AI test against PROVEtech:TA, which it reaches over gRPC. It does the
following:

- It reads `config.yaml` with its own small YAML parser (`_parse_scalar`,
  `_load_yaml`).
- It builds the five configuration sections with their defaults
  (`load_configuration`) and applies the command-line overrides
  (`apply_cli_overrides`).
- It launches PROVEtech:TA and AI-Core as child processes (`start_process`,
  `launch_provetech`, `launch_ai_core`).
- It connects to the gRPC endpoint, then configures the video source, AI-Core
  and the detection model, and starts a measurement
  (`TestAutomationController`).
- It polls the configured signals until the measurement stops or the maximum
  duration is reached (`wait_for_completion`).
- It stops the measurement, fetches the test result and exports the rows
  (`export_results`).
- In its `finally` block it terminates the processes it launched and closes
  the channel (`_terminate_process`, `main`).

The modules follow the script's parts:

| module | file | what it holds |
|---|---|---|
| `Common` | common.dfy | `Option` and `Result` |
| `Text` | text.dfy | `str.strip`, leading-space indentation, `str.lower`, decimal digits |
| `Dicts` | dicts.dfy | insertion-ordered string-keyed dictionaries |
| `Values` | values.dfy | the YAML value tree and the Python built-ins `str`, `int` and `bool` applied to it |
| `Scalars` | scalars.dfy | `_parse_scalar` and its round trips |
| `YamlParser` | yaml_parser.dfy | `_load_yaml`: a loop method proved equal to a functional specification |
| `YamlWriter` | yaml_writer.dfy | a writer for the same format, and the proof that the parser reads its output back |
| `Failures` | failures.dfy | the exceptions as values and the exit code `main` maps each to |
| `Configuration` | configuration.dfy | `load_configuration`, `apply_cli_overrides` and the mutable `AutomationConfig` |
| `Rpc` | rpc.dfy | `_call_rpc` and the translation of gRPC status codes |
| `Processes` | processes.dfy | child processes, `_terminate_process`, `start_process` and the two launchers |
| `Controller` | controller.dfy | `TestAutomationController`: a class with a channel state and a call counter, plus the polling loop's specification |
| `Workflow` | workflow.dfy | `main` as functions: the steps of the `try` block, exit codes, the `finally` block |
| `AutomateTest` | automate_test.dfy | `main` as methods over the controller, the launcher and the processes, proved equal to `Workflow` |

The outside world is a set of parameters:

- The gRPC server is a `Stub`. It maps a call number, a request and a timeout
  to a response or a status code. The controller counts the calls it has made.
- Files that exist are given by `pathExists`. The launcher's `spawnFails` says
  which commands the operating system refuses.
- The clock is a sequence of `Tick`s. Each tick gives the elapsed seconds at
  one polling round.
- The float built-ins (`float()` and `str` of a float) are a `Builtins`
  record.

## Model

| member | source | states |
|---|---|---|
| Text.Strip | AutomatedAITest/automate_test.py:136 | `strip()` removes only whitespace at both ends; the result is empty exactly when the line is all whitespace |
| Text.StripIgnoresPadding | AutomatedAITest/automate_test.py:109 | whitespace padding around a value does not change what `strip()` returns |
| Text.TrimLeftIsSuffix | AutomatedAITest/automate_test.py:139 | `lstrip` keeps a suffix of the line |
| Text.StripOfPadded | AutomatedAITest/automate_test.py:109 | whitespace added at either end of any string, all-blank strings included, does not change its strip |
| Text.Indent | AutomatedAITest/automate_test.py:139 | the indentation is the number of leading spaces: all of them are spaces and the next character is not |
| Text.IndentOfSpaces | AutomatedAITest/automate_test.py:139 | n spaces in front of a line that starts with a non-space give indentation n |
| Text.Find | AutomatedAITest/automate_test.py:152 | `split(":", 1)` splits at the first colon: no colon comes before the index found |
| Text.Lower | AutomatedAITest/automate_test.py:114 | `lower()` maps each character and leaves no upper-case ASCII letter |
| Text.LowerIdempotent | AutomatedAITest/automate_test.py:276 | lower-casing twice is lower-casing once |
| Text.NatToString | AutomatedAITest/automate_test.py:667 | `str()` of a natural number is digits with no leading zero |
| Text.DecimalRoundTrip | AutomatedAITest/automate_test.py:116-117 | `int()` of the digits `str()` prints gives the number back |
| Values.IntTextRoundTrip | AutomatedAITest/automate_test.py:205-206 | `int(str(i)) == i` for every integer, negative ones included |
| Dicts.Get | AutomatedAITest/automate_test.py:194-198 | a lookup fails exactly when the key is absent |
| Dicts.PutGet | AutomatedAITest/automate_test.py:160 | `container[key] = value` stores the value under the key and leaves every other key's value unchanged |
| Dicts.PutKeys | AutomatedAITest/automate_test.py:181 | a new key goes last in insertion order; reassigning a key keeps the order |
| Dicts.PutKeepsUnique | AutomatedAITest/automate_test.py:160 | a dictionary never holds a key twice |
| Scalars.ParseScalar | AutomatedAITest/automate_test.py:106-121 | the result is a scalar (string, bool, int or float), and an int is never negative |
| Scalars.QuotedRoundTrip | AutomatedAITest/automate_test.py:112-113 | a double-quoted value parses to the text between the quotes |
| Scalars.BoolRoundTrip | AutomatedAITest/automate_test.py:114-115 | `true` and `false` parse to the booleans |
| Scalars.BoolAnyCase | AutomatedAITest/automate_test.py:114-115 | `True`, `FALSE` and every other mix of cases parse to the boolean their lower case names |
| Scalars.IntRoundTrip | AutomatedAITest/automate_test.py:116-117 | the decimal digits of n parse to the integer n |
| Scalars.DigitsAreInt | AutomatedAITest/automate_test.py:116-117 | any all-digit text is the integer its digits spell, leading zeros included |
| Scalars.FloatRoundTrip | AutomatedAITest/automate_test.py:118-119 | a token `float()` accepts that is not all digits parses to a float |
| Scalars.FloatTokenShape | AutomatedAITest/automate_test.py:118-119 | a token `float()` accepts starts and ends with a character that strip, the quote test and the bool test leave alone |
| Scalars.ScalarRoundTrip | AutomatedAITest/automate_test.py:106-121 | every renderable scalar parses back to itself |
| Scalars.RawFallback | AutomatedAITest/automate_test.py:118-121 | text that is not empty, quoted, a boolean, all digits or a float stays the stripped text |
| Scalars.PaddingIgnored | AutomatedAITest/automate_test.py:109 | whitespace around a value never changes the scalar it parses to |
| YamlParser.LoadYaml | AutomatedAITest/automate_test.py:124-183 | the parsing loop returns exactly what the functional specification `ParseYaml` returns |
| YamlParser.ReadLine | AutomatedAITest/automate_test.py:134-154 | one line is classified as blank, a list item, a line without a colon, a scalar entry or a block opener |
| YamlParser.LoadLine | AutomatedAITest/automate_test.py:134-182 | one iteration of the loop is one step of the specification |
| YamlParser.PeekNextIsList | AutomatedAITest/automate_test.py:163-175 | the peek loop computes `PeekIsList` |
| YamlParser.PeekIsListMeans | AutomatedAITest/automate_test.py:162-175 | the peek says "list" exactly when the next non-blank, non-comment line is indented deeper and starts with `- ` |
| YamlParser.PopFrames | AutomatedAITest/automate_test.py:140-141 | popping leaves a prefix of the stack whose top is indented less than the line; every popped frame was indented at least as deep |
| YamlParser.Popped | AutomatedAITest/automate_test.py:140-142 | popping frames never changes the document being built |
| YamlParser.Classify | AutomatedAITest/automate_test.py:136-139 | a line is blank exactly when it is empty or a comment; otherwise it carries its indentation |
| YamlParser.Step | AutomatedAITest/automate_test.py:139-182 | a step keeps the stack well formed, and a step that fails reports this line with a fault the line's shape explains |
| YamlParser.StepPlaces | AutomatedAITest/automate_test.py:140-182 | a step pops the frames the line closes, then places the line in the container left on top |
| YamlParser.Place | AutomatedAITest/automate_test.py:142-182 | placing a line keeps the stack well formed; a failure reports this line with a fault its shape explains |
| YamlParser.Run | AutomatedAITest/automate_test.py:133-183 | running the first n lines keeps the stack well formed, or fails at one of those lines with a fault its shape explains |
| YamlParser.ParseYaml | AutomatedAITest/automate_test.py:124-183 | the document is a dictionary; an error names a line whose shape explains it |
| YamlParser.ErrorPersists | AutomatedAITest/automate_test.py:145-151 | the first error ends parsing: later lines do not change it |
| YamlParser.BlankLinesIgnored | AutomatedAITest/automate_test.py:137-138 | blank and comment lines change nothing |
| YamlParser.FailsByLine | AutomatedAITest/automate_test.py:143-151 | a line that can never be placed makes the parse fail at that line or earlier |
| YamlParser.LineWithoutColonRejected | AutomatedAITest/automate_test.py:150-151 | a line that is neither an item nor holds a colon makes the file fail to load |
| YamlParser.TopLevelItemRejected | AutomatedAITest/automate_test.py:143-147 | a `- ` item at indentation 0 cannot go in the root dictionary and is rejected |
| YamlParser.ItemUnderDictRejected | AutomatedAITest/automate_test.py:143-147 | a `- ` item at any indentation whose container after the pops is a dict is rejected with MisplacedItem |
| YamlParser.EntryUnderListRejected | AutomatedAITest/automate_test.py:155-159 | `key: value` whose container after the pops is a list is rejected with ScalarInList |
| YamlParser.OpenerUnderListRejected | AutomatedAITest/automate_test.py:176-179 | `key:` whose container after the pops is a list is rejected with NestedInList |
| YamlParser.ParseRejectsItemUnderDict | AutomatedAITest/automate_test.py:143-147 | a file whose first failing line is such an item fails to load at that line |
| YamlParser.ParseRejectsEntryUnderList | AutomatedAITest/automate_test.py:155-159 | a file whose first failing line is such an entry fails to load at that line |
| YamlParser.ParseRejectsOpenerUnderList | AutomatedAITest/automate_test.py:176-179 | a file whose first failing line is such an opener fails to load at that line |
| YamlParser.KeyIsBeforeFirstColon | AutomatedAITest/automate_test.py:152-154 | the key is the stripped text before the first colon; the value is the stripped rest |
| YamlParser.ItemAppends | AutomatedAITest/automate_test.py:143-149 | an item under a list appends its parsed scalar |
| YamlParser.ScalarLineStores | AutomatedAITest/automate_test.py:152-161 | `key: value` under a dictionary stores the parsed scalar under the key and keeps the other keys |
| YamlParser.BlockOpenerOpens | AutomatedAITest/automate_test.py:162-182 | `key:` pushes a new container, a list exactly when the peek finds a deeper item and a dictionary otherwise |
| YamlWriter.WrittenClassified | AutomatedAITest/automate_test.py:134-175 | each line written for a tree in the indentation format is read as the entry, opener or item it was written for, the look-ahead included |
| YamlWriter.WrittenSteps | AutomatedAITest/automate_test.py:140-182 | reading the lines written for a tree adds exactly its entries, in order, to the dictionary they are written under |
| YamlWriter.RoundTrip | AutomatedAITest/automate_test.py:124-183 | every tree of distinct writable keys, scalars, nested dicts and non-empty scalar lists, once written, parses back to itself |
| Failures.ExitCode | AutomatedAITest/automate_test.py:713-718 | exit code 1 exactly for ConfigurationError, ProcessLaunchError, ConnectionError and TimeoutError; 2 exactly for KeyboardInterrupt; no code exactly when the exception escapes |
| Configuration.EndpointSplits | AutomatedAITest/automate_test.py:45-47 | the endpoint is the host, a colon, then the port's digits, which read back as the port |
| Configuration.EffectiveTimeoutMs | AutomatedAITest/automate_test.py:101-103 | the timeout is the configured value unless that is 0, when it is 10000 ms |
| Configuration.StrEach | AutomatedAITest/automate_test.py:243 | iterating log_signals gives `str()` of each list item, the keys of a dict or the characters of a string; a number or bool raises |
| Configuration.GrpcFrom | AutomatedAITest/automate_test.py:204-207 | the grpc section's host and port, localhost and 50051 by default; a section that is not a dict raises |
| Configuration.AiCoreFrom | AutomatedAITest/automate_test.py:209-214 | the ai_core section: executable and config file `""` by default, timeout 10000 ms and 1 instance by default; given integer entries are taken as given; an empty section gives exactly these defaults |
| Configuration.ModeFrom | AutomatedAITest/automate_test.py:216 | the video mode is a given text entry lower-cased, `device` by default, and always lower case |
| Configuration.FilePathFrom | AutomatedAITest/automate_test.py:217-218 | the video file path is set exactly when the entry is present and truthy, and is then `str()` of the entry; a non-empty text entry is taken as given |
| Configuration.LoopFileFrom | AutomatedAITest/automate_test.py:225 | loop_file is true exactly when the entry is present and truthy |
| Configuration.WebcamIndexAsWritten | AutomatedAITest/automate_test.py:219-224 | the index is None exactly for a missing entry, `""` or `[]`, and an integer entry is taken as given |
| Configuration.EmptyWebcamEntryRaises | AutomatedAITest/automate_test.py:219-224 | a `webcam_index:` line with no value becomes `{}`, and `int({})` raises TypeError |
| Configuration.WebcamIndex | AutomatedAITest/automate_test.py:219-224 | as above, except that an empty block also gives None; it agrees with the code on every other value |
| Configuration.VideoFrom | AutomatedAITest/automate_test.py:216-235 | the video section: mode, file path and webcam index as the three readings above, loop flag as `bool()` of the entry, and given text for device name, driver id and resolution; it fails exactly when the webcam index does; an empty section gives the defaults |
| Configuration.TaExecutable | AutomatedAITest/automate_test.py:239-241 | the PROVEtech:TA executable is None exactly when the entry is missing or falsy |
| Configuration.TestFrom | AutomatedAITest/automate_test.py:237-244 | the test section: a given model name and output directory are taken as given, `./results` and no signals by default; each listed signal is passed through `str()`; the PROVEtech:TA executable as above |
| Configuration.LoggingFrom | AutomatedAITest/automate_test.py:246-249 | the logging section never fails when it is a dict; level INFO and `./logs/automation.log` by default |
| Configuration.FirstMissing | AutomatedAITest/automate_test.py:193-198 | the sections are looked up in order, and the first missing one is the one reported |
| Configuration.LoadConfigurationFailures | AutomatedAITest/automate_test.py:186-202 | a missing file, a parse error and the first missing section each raise their own ConfigurationError |
| Configuration.LoadConfiguration | AutomatedAITest/automate_test.py:186-257 | a configuration that loads came from an existing file that parsed and held all five sections |
| Configuration.EmptySectionsGiveDefaults | AutomatedAITest/automate_test.py:204-257 | five empty sections give exactly the documented defaults |
| Configuration.Overridden | AutomatedAITest/automate_test.py:260-296 | no option reaches parallel_instances or the log file, and a lower-case video mode stays lower case |
| Configuration.NoOverridesChangeNothing | AutomatedAITest/automate_test.py:260-296 | with no option given, the configuration is unchanged |
| Configuration.OverridesIdempotent | AutomatedAITest/automate_test.py:260-296 | applying the same overrides twice is applying them once |
| Configuration.AutomationConfig.constructor | AutomatedAITest/automate_test.py:91-99 | the object holds the five given sections |
| Configuration.AutomationConfig.ApplyCliOverrides | AutomatedAITest/automate_test.py:260-296 | the fields updated in place equal the overridden settings |
| Rpc.RpcTimeoutMs | AutomatedAITest/automate_test.py:598 | the RPC timeout is the effective timeout, but never below 5 seconds |
| Rpc.CallResult | AutomatedAITest/automate_test.py:597-610 | a call succeeds exactly when the server answers; DEADLINE_EXCEEDED becomes TimeoutError; UNAVAILABLE and UNIMPLEMENTED become ConnectionError; any other status is re-raised |
| Rpc.FailedCallExitCode | AutomatedAITest/automate_test.py:601-610 | a failed RPC makes `main` return 1 exactly when its status is translated, and escape `main` otherwise |
| Rpc.Issue | AutomatedAITest/automate_test.py:699-702 | the calls of a sequence of steps: all are made on success, and at least one on a failure |
| Rpc.IssueStopsAtFailure | AutomatedAITest/automate_test.py:699-702 | every call before the failing one succeeded, and the failure raised is the failing call's |
| Rpc.IssueAppend | AutomatedAITest/automate_test.py:699-708 | issuing two runs of calls one after the other is issuing them together |
| Processes.Process.constructor | AutomatedAITest/automate_test.py:388 | a new process is running and nothing has been done to it |
| Processes.Process.Poll | AutomatedAITest/automate_test.py:358 | `poll()` reports whether the process has exited and changes nothing else |
| Processes.Process.SendSignal | AutomatedAITest/automate_test.py:362 | a signal is recorded; only kill is sure to end the process |
| Processes.Process.Wait | AutomatedAITest/automate_test.py:364 | `wait` times out exactly when the process has not exited after the signals sent so far |
| Processes.Escalation | AutomatedAITest/automate_test.py:355-374 | a process that has exited is only polled; otherwise the escalation ends with a kill or a wait the process did not outlast |
| Processes.EscalationWaitBound | AutomatedAITest/automate_test.py:361-374 | a process that ignores the graceful signals is gone after at most 15 s of waiting on Windows and 10 s on POSIX |
| Processes.TerminateProcess | AutomatedAITest/automate_test.py:355-374 | afterwards the process has exited, and what was done to it is the escalation for its platform |
| Processes.ExitedProcessIsLeftAlone | AutomatedAITest/automate_test.py:358-359 | a process that has already exited is sent no signal |
| Processes.KillOnlyAfterTerminateTimesOut | AutomatedAITest/automate_test.py:369-374 | kill is the last action, and comes only after terminate and a 10-second wait that timed out |
| Processes.CtrlBreakComesFirstOnWindows | AutomatedAITest/automate_test.py:361-369 | on Windows, CTRL_BREAK and a 5-second wait come first, and terminate follows exactly when the process ignores CTRL_BREAK; on POSIX, terminate comes first |
| Processes.Launcher.constructor | AutomatedAITest/automate_test.py:377-390 | a launcher has spawned nothing yet |
| Processes.Launcher.StartProcess | AutomatedAITest/automate_test.py:377-390 | a missing executable raises "not found" and spawns nothing; otherwise the command is handed to the OS and the launch fails exactly when the spawn does |
| Processes.Launcher.LaunchAiCore | AutomatedAITest/automate_test.py:636-654 | AI-Core starts exactly when it is not skipped, its executable exists and the spawn succeeds; launch failures are logged, never raised |
| Processes.Launcher.LaunchProvetech | AutomatedAITest/automate_test.py:657-672 | skipped or unconfigured gives None; otherwise the launch either starts the process or re-raises its ProcessLaunchError |
| Processes.AiCoreCommand | AutomatedAITest/automate_test.py:649 | the config file is passed only when it exists |
| Processes.TaPortReadsBack | AutomatedAITest/automate_test.py:667 | the `--grpc-port=` argument reads back through `int()` as the configured port, followed by `--automation` |
| Controller.VideoRequest | AutomatedAITest/automate_test.py:423-459 | the request is built exactly when the mode is supported and, in file mode, the file exists; each failure raises its ConfigurationError; the payload carries the device name, driver id, resolution and model name; the webcam index only in webcam mode; the file path and loop flag, with their configured values, only in file mode |
| Controller.TimeoutSeconds | AutomatedAITest/automate_test.py:483 | `ceil(ms / 1000)`: the smallest whole number of seconds covering the milliseconds |
| Controller.AiCoreRequest | AutomatedAITest/automate_test.py:483-493 | the request names the configured model, carries the executable, config file and instance count, and a timeout of the configured milliseconds rounded up to seconds |
| Controller.AiCoreTimeoutIsRawValue | AutomatedAITest/automate_test.py:478-493 | configure_ai_core sends the configured timeout rounded up to seconds, so a timeout of 0 is sent as 0 s even though the RPC timeout falls back to 10000 ms |
| Controller.SignalValue | AutomatedAITest/automate_test.py:581-595 | a signal read succeeds exactly when the call returns a value; an empty answer raises RuntimeError; a failed call raises its translated error |
| Controller.RunningValue | AutomatedAITest/automate_test.py:571-579 | the running flag is the truthiness of RetVal, false when it is missing; it fails exactly when the call fails |
| Controller.TestResultOf | AutomatedAITest/automate_test.py:552-569 | the test result is the response's three fields; it fails exactly when the call fails |
| Controller.ReadRow | AutomatedAITest/automate_test.py:529-531 | reading a row makes one call per signal, stopping at the first one that fails |
| Controller.ReadRowSucceeds | AutomatedAITest/automate_test.py:529-531 | a row that is read in full had every signal read succeed |
| Controller.ReadRowKeepsOthers | AutomatedAITest/automate_test.py:528-531 | reading signals leaves every other column of the row (the timestamp) alone |
| Controller.ReadRowValues | AutomatedAITest/automate_test.py:529-531 | each signal's column holds the value its read returned |
| Controller.ReadRowKeys | AutomatedAITest/automate_test.py:528-531 | the row's columns are the timestamp followed by the signals in configured order |
| Controller.ReadRowLastWins | AutomatedAITest/automate_test.py:528-531 | whatever the names, a column holds the value of the last read of that name, so a repeated signal or one named `timestamp` overwrites the earlier value |
| Controller.ServerAnswers | AutomatedAITest/automate_test.py:526-534 | the polling loop's reads and running checks are the server's answers to GetSignal and MeasureIsRunning |
| Controller.MonitorFirst | AutomatedAITest/automate_test.py:526-541 | one polling round: a failed read or running check aborts; stopped or past the maximum duration finishes with the row; otherwise it goes on |
| Controller.MonitorCounts | AutomatedAITest/automate_test.py:526-542 | each round collects one row with width+1 calls; a finished loop holds at least one row; the loop never collects more rows than there are ticks |
| Controller.MonitorStops | AutomatedAITest/automate_test.py:534-540 | the loop goes on through every round but the last, and stops at the first round where the measurement has stopped or the duration is reached |
| Controller.MonitorReads | AutomatedAITest/automate_test.py:529-532 | the k-th collected row is the row read at the k-th round |
| Controller.TestAutomationController.constructor | AutomatedAITest/automate_test.py:396-401 | a new controller has no channel and has made no call |
| Controller.TestAutomationController.Connect | AutomatedAITest/automate_test.py:403-421 | connect opens the channel exactly when the endpoint gets ready; otherwise it raises ConnectionError naming the endpoint and keeps no channel |
| Controller.TestAutomationController.CloseChannel | AutomatedAITest/automate_test.py:724-727 | closing the channel marks it closed and makes no call |
| Controller.TestAutomationController.CallRpc | AutomatedAITest/automate_test.py:597-610 | one call to the server with the RPC timeout, and its translated result |
| Controller.TestAutomationController.ConfigureVideo | AutomatedAITest/automate_test.py:423-476 | an invalid video configuration raises before any call; otherwise ModifyVideoAudioConfig then SetVideoAudio, stopping at the first failure |
| Controller.TestAutomationController.ConfigureAiCore | AutomatedAITest/automate_test.py:478-498 | one ModifyModelNodeConfig call carrying the executable, config file, instances and timeout in seconds |
| Controller.TestAutomationController.LoadModel | AutomatedAITest/automate_test.py:500-507 | one LoadModel call naming the configured model |
| Controller.TestAutomationController.StartMeasurement | AutomatedAITest/automate_test.py:509-515 | one MeasureStart call that does not save to disk |
| Controller.TestAutomationController.StopMeasurement | AutomatedAITest/automate_test.py:544-550 | one MeasureStop call |
| Controller.TestAutomationController.FetchTestResult | AutomatedAITest/automate_test.py:552-569 | one GetResult call and the test result it carries |
| Controller.TestAutomationController.IsMeasurementRunning | AutomatedAITest/automate_test.py:571-579 | one MeasureIsRunning call and the running flag it carries |
| Controller.TestAutomationController.ReadSignal | AutomatedAITest/automate_test.py:581-595 | one interpreted GetSignal call and the value it carries |
| Controller.TestAutomationController.ReadSignals | AutomatedAITest/automate_test.py:528-531 | the loop over the signals reads exactly the row `ReadRow` specifies, with one call per signal on success |
| Controller.TestAutomationController.PollOnce | AutomatedAITest/automate_test.py:527-541 | one round of the polling loop either ends the loop as `Monitor` does, or leaves the rest of `Monitor` to run |
| Controller.TestAutomationController.WaitForCompletion | AutomatedAITest/automate_test.py:517-542 | the polling loop ends as `Monitor` specifies, having made exactly the calls `Monitor` counts |
| Workflow.Teardown | AutomatedAITest/automate_test.py:720-727 | the `finally` block terminates AI-Core exactly when it was started, PROVEtech:TA exactly when it was started, and closes the channel exactly when it is open, in that order |
| Workflow.ExportOf | AutomatedAITest/automate_test.py:613-631 | nothing is written exactly when no row was collected; otherwise the rows and the test result go to the output directory |
| Workflow.ExitOf | AutomatedAITest/automate_test.py:713-718 | the `except` clauses: 1 for the four caught kinds, 2 for a keyboard interrupt, and re-raised otherwise |
| Workflow.SetupIssue | AutomatedAITest/automate_test.py:699-702 | the five setup calls are two video calls, then the AI-Core, model and start calls, each stopping the run at its failure |
| Workflow.PreparedInSteps | AutomatedAITest/automate_test.py:699-702 | the setup ends at the first of configure_video, configure_ai_core, load_model and start_measurement that fails |
| Workflow.Prepared | AutomatedAITest/automate_test.py:699-702 | the setup reaches step 4, 5, 6 or 7 of the try block |
| Workflow.PreparedEnds | AutomatedAITest/automate_test.py:699-702 | the setup succeeds exactly when all five calls succeed; otherwise it raises the first failing call's error at that call's step, or the video configuration error before any call |
| Workflow.Conclusion | AutomatedAITest/automate_test.py:703-712 | after the loop the try block reaches step 8, 9, 10 or 11 |
| Workflow.ConclusionEnds | AutomatedAITest/automate_test.py:703-712 | an aborted loop raises its failure; a failed stop or fetch raises at its step; the run completes exactly when all steps pass and then exports the rows with the result |
| Workflow.AfterSetup | AutomatedAITest/automate_test.py:703-712 | the steps after the setup reach step 8 or later |
| Workflow.AfterSetupEnds | AutomatedAITest/automate_test.py:703-712 | the same, with the stop and fetch calls numbered after the loop's calls |
| Workflow.CompletedRunExports | AutomatedAITest/automate_test.py:703-712 | a completed run exports at least one row and no more rows than rounds, each row as read at its round |
| Workflow.Measurement | AutomatedAITest/automate_test.py:699-712 | the measurement steps reach step 4 or later |
| Workflow.MeasurementEnds | AutomatedAITest/automate_test.py:699-712 | the measurement stops before step 8 exactly when the setup fails, and then raises that failure |
| Workflow.TryBlock | AutomatedAITest/automate_test.py:687-712 | the try block reaches step 1 at least and at most all of its 11 steps |
| Workflow.Closing | AutomatedAITest/automate_test.py:713-727 | after the try block: 0 exactly for a completed run, still running exactly while polling, no cleanup while polling, the channel closed exactly when the run got past connect |
| Workflow.Session | AutomatedAITest/automate_test.py:684-727 | the steps taken are a non-empty prefix of the try block |
| Workflow.SessionExits | AutomatedAITest/automate_test.py:687-719 | the steps taken are a prefix of the try block; `main` returns 0 exactly when it took them all; a failed PROVEtech:TA launch or connect returns 1; other failures map by kind |
| Workflow.SessionCleansUp | AutomatedAITest/automate_test.py:720-727 | the `finally` block terminates exactly the processes that were started and closes the channel exactly when connect succeeded, in order |
| Workflow.MainLoadsFirst | AutomatedAITest/automate_test.py:675-679 | a configuration that does not load escapes `main` with no step taken and no cleanup, and it is the only way to take no step |
| Workflow.Main | AutomatedAITest/automate_test.py:675-728 | the steps taken are a prefix of the try block, and none exactly when the configuration fails to load |
| AutomateTest.Setup | AutomatedAITest/automate_test.py:699-702 | the four controller steps end as `Prepared` specifies, with five calls on success |
| AutomateTest.Conclude | AutomatedAITest/automate_test.py:707-712 | stopping, fetching and exporting end as `Conclusion` specifies |
| AutomateTest.Finish | AutomatedAITest/automate_test.py:703-712 | the loop, stop, fetch and export end as `AfterSetup` specifies |
| AutomateTest.Measure | AutomatedAITest/automate_test.py:699-712 | the measurement steps on the controller end as `Measurement` specifies |
| AutomateTest.RunSteps | AutomatedAITest/automate_test.py:687-712 | the try block ends as `TryBlock` specifies; PROVEtech:TA runs exactly when it was wanted and launched; AI-Core runs exactly when it started after connect; the controller exists exactly when the launch did not raise |
| AutomateTest.CleanUp | AutomatedAITest/automate_test.py:720-727 | the actions are `Teardown`'s; each started process has exited by the escalation; an open channel is closed |
| AutomateTest.Finally | AutomatedAITest/automate_test.py:719-727 | no cleanup while still polling; otherwise every started process is terminated |
| AutomateTest.EndRun | AutomatedAITest/automate_test.py:713-727 | the exit code and cleanup after the try block are `Closing`'s |
| AutomateTest.RunSession | AutomatedAITest/automate_test.py:684-727 | `main` after loading is `Session`: exactly the expected commands are spawned, and every started process is terminated unless the loop is still polling |
| AutomateTest.RunMain | AutomatedAITest/automate_test.py:675-728 | `main` is `Main`: a configuration that fails to load spawns nothing; otherwise the launches above, and every started process is terminated when `main` ends |

## Left out

- Reading files is left out: the configuration file's lines are a parameter.
  Whether a path exists is the `pathExists` oracle; `expanduser`, `resolve`
  and `Path` normalisation are not modelled.
- `str.isdigit` and `str.lower` are modelled on ASCII digits and ASCII
  letters. Unicode digits and case mappings are not. `str.strip` uses the
  full Unicode whitespace set.
- `float()`, `str()` of a float, and `str()` of a list or dict are the
  `Builtins` parameter, because floating point is not modelled. Only the
  syntax of a token `float()` accepts is modelled (`ParsesAsFloat`).
- The argparse parser (`parse_arguments`) is left out. Its result is the
  `CliArgs` and `Invocation` records, with None for an option not given.
- `export_results` writes no files in the model: no directory is created and
  no CSV or JSON is serialised. Its result is the `Export` value (the
  directory, the rows and the test result), or `NothingWritten`.
- `connect` makes no network calls. Whether the endpoint gets ready in time is
  the `ready` flag. The channel options and the deadline arithmetic are not
  modelled.
- Clocks and sleeping are left out: `time.sleep(5)` after launching
  PROVEtech:TA, `time.sleep(poll_interval)`, and `time.time()`.
  - The elapsed time at each polling round is a `Tick`.
  - The ticks also bound the loop. When they run out, the loop is still
    polling (`StillPolling`), and `main` has not ended. The model then stops
    and does not run the `finally` block.
- The timestamp column of each row comes from the tick rather than from
  `datetime.now()`.
- Logging (`setup_logging`, `update_log_level`, every logger call) is left
  out, and so are the log settings beyond loading them.
- KeyboardInterrupt is only modelled as a failure value and its exit code 2
  (`ExitOf`, `Failures.ExitCode`). No step raises it, because the model has no
  asynchronous interrupt.
- Exception messages are reduced to the data they name. Examples are the
  offending line, the missing section, the endpoint and the RPC name.
- Rpc.RpcTimeoutMs: `_call_rpc` computes the timeout in float seconds. The
  model keeps it in whole milliseconds, as `max(timeout_ms, 5000)`.
- The `Stub` gives each call's answer by call number. It does not model that
  several controller objects could share a channel, nor aliasing of the
  configuration's sub-objects.
- Processes.Process.Wait: the model does not say when a process exits on its
  own. A process exits when it is killed, or after a signal in the set it
  obeys (`exitsOn`).
- Three behaviours of the code that the model follows as written:
  - A failed signal read aborts the polling loop and the run.
  - A configuration that fails to load escapes `main` as an exception, with no
    exit code, because loading happens before the `try`.
  - `configure_ai_core` sends the configured `timeout_ms` as it is, so a 0 is
    sent as 0 seconds. It does not use the 10000 ms fallback.

- Configuration.VideoFrom: an empty `webcam_index:` block loads as no index
  (the corrected `WebcamIndex` of the Findings below), where the code raises
  TypeError from `int({})` (automate_test.py:219-224). The as-written reading
  is `WebcamIndexAsWritten`. `Build`, `LoadConfiguration` and `Main` inherit
  this.
- Values.PyInt: `int()` of an infinite float is modelled as ValueError; Python
  raises OverflowError. Neither is caught, so both escape `main` alike.
- The `YamlWriter` module is not part of the script. It writes a tree in the
  indentation format the parser reads, and serves as the parser's partner in
  the round-trip proof.

## Findings

| source | as written | input that shows it | evidently intended | confidence | as-written member | corrected member |
|---|---|---|---|---|---|---|
| AutomatedAITest/automate_test.py:219-224 | `int(webcam_index_value)` unless the value is None, `""` or `[]` | a `webcam_index:` line with nothing after it: the parser stores an empty dict `{}`, and `int({})` raises TypeError, which escapes `main` | an empty entry means "no webcam index", as an absent or empty one does | not executed | Configuration.WebcamIndexAsWritten, Configuration.EmptyWebcamEntryRaises | Configuration.WebcamIndex |
