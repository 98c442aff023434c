# TestDreadnought test runner, modelled in Dafny

TestDreadnought runs API tests written as JavaScript files. Under a config directory, `globalScript.js`
declares a `Settings` object with a `baseUrl` and HTTP `headers`. Every other `*.js` file in the tree is a
test case.

For each test case the runner builds a fresh JavaScript sandbox. Building it takes these steps, in order:

- bind `console`;
- run the global script;
- bind the `Post` bridge to the HTTP client;
- bind the fixture comparisons `ResultIsLikeFile` and `ResultIsLikeGlobalFile`;
- run the extension hook.

The test script then runs in that sandbox. A test passes when its script completes. Finally the results are
grouped by folder.

This project models that core. It covers:

- the orchestrator: discovery, the run loop and the summary;
- the settings resolver;
- the sandbox construction with its host primitives;
- the thin HTTP client wrapper those primitives call.

It is split into six modules:

- `Host`: how a Go call ends (`Go<T>`), file-system paths as sequences of clean segments, the file system as a
  finite map, `strings.Join`, and the parts of `path/filepath` the runner uses.
- `Sandbox`: JavaScript values, their export to Go (`Export`), and the global scope of one interpreter instance. The
  instance is the class `VM`; its `globals` field is updated in place by `Set` and `Run`. A ghost `history`
  records what was bound and run, in order. Executing a script is an oracle of type `Interpreter`.
- `Config`: loading a script into a sandbox, and reading `Settings`, its `baseUrl` and its `headers`.
- `Client`: `PostRequest` over a transport oracle.
- `Vm`: `InitializeVM` and the primitives it binds: the console, `Post`, the two fixture comparisons and the
  extension hook.
- `Orchestrator`: test discovery over a directory walk, the per-test run loop over an array, and
  `SumTestResults`.

Each imperative operation of the source is a method. Its contract ties the result to a specification
function: `LoadScriptSpec`, `InitSpec`, `Discovered`, `RunSpec`, `Summary`, or the relation
`IsHeadersResult`. The lemmas then state what the runner promises about those functions.

Two facts come out of the model:

- Every sandbox runs the same global script over the same console-only scope. So whether a sandbox can be built
  does not depend on the test case. A run that aborts on a sandbox failure therefore aborts at the first test,
  before any test script has run.
- The count printed as "tests failed" is the number of folders holding a failed test, not the number of failed
  tests.

On a sandbox failure the source marks the test failed and returns at once. Its updated test list is then never
seen again. The model returns that list inside `InitAborted`, so the lemmas can state what the loop did to it.

## Model

| member | source | states |
|---|---|---|
| Host.ReadFile | internal/config/config.go:13-16 | reading succeeds exactly when the path holds content, and then returns that content; a missing file gives the "open <path>: no such file or directory" error and an I/O error keeps its own text; it never panics |
| Host.Dir | internal/orchestrator/orchestrator.go:134 | the directory of a non-empty path, with the base name appended again, is that path |
| Host.SplitJoin | internal/vm/vm.go:166 | splitting a non-empty join of separator-free parts at the separator gives the parts back |
| Sandbox.VM.constructor | internal/vm/vm.go:18 | a new interpreter instance has an empty global scope and no history |
| Sandbox.VM.Set | internal/vm/vm.go:179 | binding a global replaces exactly that name and records the binding |
| Sandbox.VM.Run | internal/config/config.go:18 | the outcome is the interpreter's outcome on the scope before the call; a script that completes or throws leaves its scope behind, including what a throwing script assigned before it threw; the run is recorded with the scope it saw |
| Sandbox.Export | internal/config/config.go:32-42 | undefined and null export as nil; an object exports as its properties minus those whose value is undefined, each exported in turn; a function object exports as an object; strings, numbers and booleans export unchanged |
| Config.LoadScript | internal/config/config.go:12-23 | the status is that of reading then running the file: a read error is wrapped as "Error reading <path> file: ...", a thrown error as "Error executing <path> script: ..."; the scope afterwards is `ScopeAfterLoad`; a file that cannot be read never reaches the interpreter and leaves scope and history alone |
| Config.ScopeAfterLoad | internal/config/config.go:13-22 | the scope after a load is the script's result on success and the untouched scope when the file cannot be read |
| Config.ReadFailureRunsNothing | internal/config/config.go:13-16 | when the file cannot be read, the outcome is the wrapped read error whatever the interpreter would do |
| Config.LoadScriptErrorNamesStage | internal/config/config.go:15-19 | a failure starts with "Error reading " exactly when reading failed and with "Error executing " exactly when the script threw |
| Config.GetSettings | internal/config/config.go:26-43 | no error is ever returned; an absent, undefined or null Settings gives nil; an object or a function gives its exported properties; any other value panics at the type assertion |
| Config.GetBaseUrl | internal/config/config.go:75-87 | with a defined baseUrl, a string is returned exactly when the value is a string and any other value panics; without one (absent or undefined) the result is "" unless reading Settings panicked; no error is returned |
| Config.BaseUrlReread | internal/config/config.go:75-87 | a base URL just stored in Settings is what the next call returns |
| Config.HeaderStrings | internal/config/config.go:63-70 | the string map has exactly the keys of the headers object |
| Config.GetHeaders | internal/config/config.go:46-73 | the result is one of the outcomes `IsHeadersResult` allows: an empty map when Settings or its headers are absent; "headers is not a map[string]interface{}" for a non-object; the error for some non-string value's key; otherwise every header as a string |
| Config.HeadersDeterminedOnSuccess | internal/config/config.go:64-72 | a successful result is the only possible result, whatever order the keys are visited in |
| Config.HeadersRoundTrip | internal/config/config.go:58-72 | a successful result, mapped back to JavaScript strings, is exactly the exported headers object; for a script object its keys are exactly the defined ones, each holding the returned string; without headers it is empty |
| Config.HeadersErrorNamesCause | internal/config/config.go:58-67 | an error means Settings has defined headers, and either they are neither an object nor a function and the error is the not-a-map text, or the error names a key whose value is defined but not a string |
| Config.UndefinedSettingIsAbsent | internal/config/config.go:32-42 | a Settings property whose value is undefined is read by GetSettings, GetBaseUrl and GetHeaders exactly as if it were absent |
| Config.UndefinedHeaderIsAbsent | internal/config/config.go:58-72 | a header whose value is undefined is left out of the headers, not reported as a non-string value |
| Config.UndefinedSettingsExamples | internal/config/config.go:52-55 | an undefined header value or undefined headers give the empty header map; an undefined baseUrl or a Settings function give the base URL "" |
| Client.PostRequest | internal/client/client.go:10-22 | one request is sent to baseUrl + url with the given headers and payload; a delivery returns the response text and body; a transport error becomes "Error making POST request: ..."; it never panics |
| Vm.ConsoleGlobals | internal/vm/vm.go:170-180 | the scope the global script runs in holds the console and nothing else |
| Vm.RegisterKeeps | internal/vm/vm.go:35 | every name the extension hook registers is bound afterwards, and every other name keeps exactly its earlier value or absence |
| Vm.GlobalScriptSeesOnlyConsole | internal/vm/vm.go:17-26 | the global script runs before Post and the fixture primitives are bound, so the sandbox depends only on what the interpreter does with the console-only scope |
| Vm.HostBindingsOverrideGlobalScript | internal/vm/vm.go:24-35 | after a successful build, Post and both fixture primitives are the host's own bindings (Post capturing no folder, the fixture primitives the test folder and the config directory), unless an extension rebinds them |
| Vm.GlobalScriptStateSurvives | internal/vm/vm.go:24-35 | every other name the global script left behind, Settings above all, survives into the sandbox unchanged unless an extension rebinds it |
| Vm.SetupConsoleLog | internal/vm/vm.go:170-180 | binds `console` and nothing else |
| Vm.SetUpClients | internal/vm/vm.go:40-81 | binds `Post`, which captures nothing of the test's folder, and nothing else |
| Vm.SetUpTestFunction | internal/vm/vm.go:83-153 | binds `ResultIsLikeFile` (over the test folder), then `ResultIsLikeGlobalFile` (over the config directory) |
| Vm.SetUpExtensions | extensions/extensions.go:11-13 | the scope afterwards is the hook's registrations applied in order, and each is recorded |
| Vm.InitializeVM | internal/vm/vm.go:17-38 | the status and, on success, the scope are those of `InitSpec`; the history is: console only when the global script cannot be read; console and the script run when it throws; otherwise console, the script run, Post, both fixture primitives and the extensions, in that order |
| Vm.ExecuteConfigScript | internal/vm/vm.go:156-158 | the status is that of loading the test script into the sandbox as it stands; the sandbox's scope afterwards is `ScopeAfterLoad` of its scope before; the run is recorded unless the file cannot be read |
| Vm.CompareWithFixture | internal/vm/vm.go:92-117 | the match message exactly when the fixture holds the response; the mismatch message exactly when it holds other text; the "does not exist" and "Error reading file" messages with the resolved path otherwise; never raises |
| Vm.FixturePrimitivesAgree | internal/vm/vm.go:86-152 | the global comparison is the local one rooted at <configDir>/globalTestFiles/results, so where both fixture files hold the same text both give the same verdict |
| Vm.ResultIsLikeFile | internal/vm/vm.go:87-118 | the comparison against <test folder>/<rel>: the match message exactly when that file holds the response, the mismatch message exactly when it holds other text, the does-not-exist message naming that path when it is missing |
| Vm.ResultIsLikeGlobalFile | internal/vm/vm.go:121-152 | the same comparison against <configDir>/globalTestFiles/results/<rel> |
| Vm.Post | internal/vm/vm.go:45-79 | the outcome is the Post decision on some GetHeaders result of the sandbox's current scope and its current base URL |
| Vm.PostDecision | internal/vm/vm.go:49-78 | a panic exactly when resolving the headers, or then the base URL, panics; a raised "Error To Js" exactly when both resolve and the transport does not deliver; a header or base-URL error returned as the string "Error: <msg>"; see PostSettingsErrorIsValue and PostSendsOneRequest |
| Vm.PostSettingsErrorIsValue | internal/vm/vm.go:49-56 | a header error is returned to the script as the string "Error: <msg>", is not raised, and sends nothing |
| Vm.PostSendsOneRequest | internal/vm/vm.go:65-78 | with headers and base URL resolved, the outcome depends only on the transport's answer to that one request: an "Error To Js" error with the wrapped text, or an object with exactly `response` and `body` |
| Vm.PostDependsOnlyOnSettings | internal/vm/vm.go:50-58 | Post reads only Settings, at call time: two scopes that agree on Settings allow the same header results and give the same outcome |
| Vm.FormatForConsole | internal/vm/vm.go:161-167 | the line is the renderings of the arguments joined by single spaces (empty for no arguments); splitting it at spaces gives the renderings back when none contains a space |
| Orchestrator.GetListOfTestCases | internal/orchestrator/orchestrator.go:110-147 | the first walk error ends discovery and is returned as "error walking the path <root>: ..." with no list; otherwise the list is `Discovered` on the walk |
| Orchestrator.FirstWalkErrorExtends | internal/orchestrator/orchestrator.go:118-121 | an error in a prefix of the walk is the first error of the whole walk |
| Orchestrator.DiscoveredNeverGlobalScript | internal/orchestrator/orchestrator.go:129-131 | no listed test case is named globalScript.js, wherever it sits |
| Orchestrator.DiscoveredAppend | internal/orchestrator/orchestrator.go:118-140 | the list keeps walk order: the list for two stretches of walk is the two lists concatenated |
| Orchestrator.DiscoveredSound | internal/orchestrator/orchestrator.go:123-136 | every listed case comes from a visited non-directory whose name ends in ".js" and is not the global script; it has not run; its folder and name rejoined onto the config directory give the visited path, so folders are relative to the config directory even under a subset |
| Orchestrator.EntryRejoins | internal/orchestrator/orchestrator.go:124-135 | the folder and name recorded for a visited file rejoin to its full path |
| Orchestrator.DiscoveredComplete | internal/orchestrator/orchestrator.go:123-136 | every visited script other than the global script is listed |
| Orchestrator.Judge | internal/orchestrator/orchestrator.go:31-53 | the verdict on one test: the sandbox fails to build exactly when the global script fails to load, with that error; a passed test's script file was readable; an unreadable test script fails the test with the wrapped read error; see InitOutcomeSharedByAllTests |
| Orchestrator.RunTests | internal/orchestrator/orchestrator.go:20-59 | the result is `RunSpec`: a discovery error is returned as is; the loop over the in-place test array settles or stops exactly as `RunLoop` does; a completed run is summarised |
| Orchestrator.RunLoopAllRan | internal/orchestrator/orchestrator.go:30-55 | a loop that ran to the end settled every remaining test by its own verdict and left the earlier ones alone |
| Orchestrator.InitOutcomeSharedByAllTests | internal/orchestrator/orchestrator.go:26-41 | whether a sandbox can be built, and the error when it cannot, is the same for every test case: exactly when the global script cannot be read or throws |
| Orchestrator.RunLoopNeverStops | internal/orchestrator/orchestrator.go:36-41 | a loop in which every sandbox can be built never stops early |
| Orchestrator.RunLoopStopsAtOnce | internal/orchestrator/orchestrator.go:36-41 | a loop that stops does so at the test it starts with, marking that test failed with "error initializing VM: ..." and leaving every other test untouched |
| Orchestrator.FullRunSettlesEveryTest | internal/orchestrator/orchestrator.go:30-57 | after a complete run each test kept its folder and name, was settled by its own verdict alone, is passed exactly when it has no error, and the report summarises exactly these records |
| Orchestrator.InitFailureAbortsRun | internal/orchestrator/orchestrator.go:36-41 | an aborted run stopped at the first test with the wrapped error, which is also the error returned; every other test is as discovery left it; no summary is produced |
| Orchestrator.RunAbortsExactlyWhenGlobalScriptFails | internal/orchestrator/orchestrator.go:26-41 | a run over a non-empty list aborts exactly when the global script cannot be read or throws |
| Orchestrator.SumTestResults | internal/orchestrator/orchestrator.go:61-74 | the report is `Summary` of the final list: the total, and the file names grouped by folder into passed and failed |
| Orchestrator.GroupIsBucket | internal/orchestrator/orchestrator.go:65-71 | each folder's entry holds exactly the names of that folder's passed (failed) tests in list order, and no folder without one appears |
| Orchestrator.BucketsPartitionFolder | internal/orchestrator/orchestrator.go:65-71 | every test lands in exactly one of its folder's two groups: together they hold each name of the folder as often as the list does |
| Orchestrator.BucketNonEmpty | internal/orchestrator/orchestrator.go:65-71 | a folder's group is non-empty exactly when some test of that folder has that outcome |
| Orchestrator.FailedFoldersAtMostFailedTests | internal/orchestrator/orchestrator.go:102-103 | there are never more folders with a failure than failed tests |
| Orchestrator.FailedGroupsCountsFolders | internal/orchestrator/orchestrator.go:88-106 | the failed map's keys are exactly the folders with a failed test; the printed failure count is their number, at most the number of failed tests, and zero exactly when every test passed |
| Orchestrator.TwoFailuresInOneFolderCountOnce | internal/orchestrator/orchestrator.go:102-103 | two failed tests in one folder are reported as one failure |

## Left out

- HTTP: the resty client is the `Transport` oracle. Only the URL it is given and the wrapping of its error are modelled.
- JavaScript: the otto interpreter is the `Interpreter` oracle, a deterministic function of scope and source. A global script whose outcome changes between tests is not modelled. Examples are scripts using `Math.random` or the clock, or a file system that changes during the run. Argument conversion (`ToString`, and `Export` of Post's payload) is not modelled; `Post`, `ResultIsLikeFile` and `ResultIsLikeGlobalFile` take their arguments already converted.
- Vm.FormatForConsole: Go's `%v` rendering of a value is the parameter `show`.
- Console and colour output, including the "Running test case", "Passed" and warning lines and the printed summary text, is not modelled. The data the summary prints is the `Report`, and the wording of its final line follows `failedGroups`.
- The order in which Go ranges over the summary maps is not modelled. `Report` holds the maps themselves.
- Paths are sequences of clean segments, so `filepath.Join` is concatenation. `filepath.Clean` of segments such as `..` is not modelled, and `filepath.Rel` cannot fail.
- The directory walk is an input sequence in walk order. Lexical ordering and the file-system reads behind it are not modelled.
- Config.GetSettings: the errors of otto's `Get` and `Export` cannot occur for a global scope of script values, so no `Failed` outcome is modelled.
- Sandbox.Export: otto exports an array whose elements share one Go type as a typed slice, and a value wrapping a Go map or struct as that Go value; the model exports every array as an array of exported elements and the console map as a script object. Neither difference changes a getter's outcome, since an array is neither a map nor a string either way.
- Panic texts of Go type assertions are fixed strings rather than Go's exact runtime messages.
- A Go panic inside a native binding unwinds the whole run. In the model it ends as `RunPanicked` or `Crashed`, and the unwinding itself is not modelled; the scope a crashed script leaves is not modelled either (`Run` keeps the scope it had), since nothing reads it.
- Vm.InitializeVM: on failure the source returns nil. The model returns the abandoned sandbox so that its history can be stated.
- Vm.SetUpExtensions: the extension hook in extensions/extensions.go binds nothing. It is modelled as an arbitrary list of registrations applied in order, and such a hook cannot fail, as in the source.
- `GetRequest`, `PatchRequest` and `DeleteRequest` in internal/client/client.go are never bound into a sandbox and are not part of this model. Neither is the `Log` helper of extensions/extensions.go.
- The command-line entry points main.go and cmd/runTests/main.go are not part of this model.
