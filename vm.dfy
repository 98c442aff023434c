/**
 * Sandbox construction and the primitives bound into every sandbox: console
 * logging, the Post bridge to the HTTP collaborator, the two fixture comparisons
 * and the extension hook.
 */
module Vm {
  import opened Host
  import opened Sandbox
  import opened Config
  import opened Client

  const ConsoleName := "console"
  const PostName := "Post"
  const LocalFixtureName := "ResultIsLikeFile"
  const GlobalFixtureName := "ResultIsLikeGlobalFile"

  /** Global fixtures live under <configDir>/globalTestFiles/results. */
  const GlobalResultsFolder: Path := ["globalTestFiles", "results"]

  const MatchMessage := "Response matches the file content"
  const MismatchMessage := "Response does not match the file content"

  /** The name of the JavaScript error Post raises on a transport failure. */
  const CustomErrorName := "Error To Js"

  /** The console object: a map whose `log` entry is a Go function. */
  const ConsoleObject: JsVal := Obj(map["log" := Native("console.log", [])])

  /** The global scope the global script runs in: the console and nothing else. */
  function ConsoleGlobals(): (g: Globals)
    ensures g.Keys == {ConsoleName}
  {
    map[ConsoleName := ConsoleObject]
  }

  // ---------------------------------------------------------------------------
  // Bindings and their order

  /** The scope after the Post bridge and both fixture primitives are bound. The
      bridge captures no folder; the fixture primitives capture the folder they
      resolve fixtures under. */
  function HostBindings(g: Globals, testCaseParentFolder: Path, configDir: Path): Globals
  {
    g[PostName := Native(PostName, [])]
     [LocalFixtureName := Native(LocalFixtureName, [testCaseParentFolder])]
     [GlobalFixtureName := Native(GlobalFixtureName, [configDir])]
  }

  /** The scope after an extension hook bound the given names, in order. */
  function Register(g: Globals, registrations: seq<(string, JsVal)>): Globals
  {
    if registrations == [] then g
    else
      var last := registrations[|registrations| - 1];
      Register(g, registrations[..|registrations| - 1])[last.0 := last.1]
  }

  function BoundEvents(registrations: seq<(string, JsVal)>): seq<Event>
  {
    if registrations == [] then []
    else BoundEvents(registrations[..|registrations| - 1]) + [Bound(registrations[|registrations| - 1].0)]
  }

  function Names(registrations: seq<(string, JsVal)>): set<string>
  {
    set k | 0 <= k < |registrations| :: registrations[k].0
  }

  /** Every name a hook registers is bound afterwards; every other name keeps
      exactly the value (or absence) it had. */
  lemma {:induction false} RegisterKeeps(g: Globals, registrations: seq<(string, JsVal)>, name: string)
    ensures name in Names(registrations) ==> name in Register(g, registrations)
    ensures name !in Names(registrations) ==>
              && (name in Register(g, registrations) <==> name in g)
              && (name in g ==> Register(g, registrations)[name] == g[name])
  {
    if registrations != [] {
      var n := |registrations|;
      var front := registrations[..n - 1];
      RegisterKeeps(g, front, name);
      assert Names(registrations) == Names(front) + {registrations[n - 1].0} by {
        forall x | x in Names(registrations) ensures x in Names(front) + {registrations[n - 1].0} {
          var k :| 0 <= k < n && registrations[k].0 == x;
          if k < n - 1 {
            assert front[k] == registrations[k];
          }
        }
        forall x | x in Names(front) ensures x in Names(registrations) {
          var k :| 0 <= k < n - 1 && front[k].0 == x;
          assert registrations[k] == front[k];
        }
      }
    }
  }

  /** The whole sandbox after the global script left the scope `afterScript`. */
  function Install(afterScript: Globals, testCaseParentFolder: Path, configDir: Path,
                   extensions: seq<(string, JsVal)>): Globals
  {
    Register(HostBindings(afterScript, testCaseParentFolder, configDir), extensions)
  }

  /** What InitializeVM yields: the global script runs over the console alone, and
      the bridge, the fixture primitives and the extensions are bound after it. */
  function InitSpec(fs: FileSystem, globalScript: Path, testCaseParentFolder: Path, configDir: Path,
                    interp: Interpreter, extensions: seq<(string, JsVal)>): Go<Globals>
  {
    match LoadScriptSpec(ConsoleGlobals(), fs, globalScript, interp)
    case Returned(afterScript) => Returned(Install(afterScript, testCaseParentFolder, configDir, extensions))
    case Failed(e) => Failed(e)
    case Panicked(p) => Panicked(p)
  }

  /** The global script cannot see the bridge or the fixture primitives: its
      outcome, and with it the sandbox's, is decided by what the interpreter does
      with the console-only scope. */
  lemma GlobalScriptSeesOnlyConsole(fs: FileSystem, globalScript: Path, testCaseParentFolder: Path,
                                    configDir: Path, i1: Interpreter, i2: Interpreter,
                                    extensions: seq<(string, JsVal)>)
    requires ReadFile(fs, globalScript).Returned?
    requires i1(ConsoleGlobals(), ReadFile(fs, globalScript).value) == i2(ConsoleGlobals(), ReadFile(fs, globalScript).value)
    ensures PostName !in ConsoleGlobals() && LocalFixtureName !in ConsoleGlobals() && GlobalFixtureName !in ConsoleGlobals()
    ensures InitSpec(fs, globalScript, testCaseParentFolder, configDir, i1, extensions)
         == InitSpec(fs, globalScript, testCaseParentFolder, configDir, i2, extensions)
  {
  }

  /** Because the host binds its primitives after the global script, a global
      script that defines Post or ResultIsLike* is overridden; unless an extension
      rebinds them, the sandbox holds the host's own primitives. */
  lemma HostBindingsOverrideGlobalScript(fs: FileSystem, globalScript: Path, testCaseParentFolder: Path,
                                         configDir: Path, interp: Interpreter,
                                         extensions: seq<(string, JsVal)>)
    requires InitSpec(fs, globalScript, testCaseParentFolder, configDir, interp, extensions).Returned?
    requires PostName !in Names(extensions) && LocalFixtureName !in Names(extensions)
    requires GlobalFixtureName !in Names(extensions)
    ensures var g := InitSpec(fs, globalScript, testCaseParentFolder, configDir, interp, extensions).value;
            && PostName in g && g[PostName] == Native(PostName, [])
            && LocalFixtureName in g && g[LocalFixtureName] == Native(LocalFixtureName, [testCaseParentFolder])
            && GlobalFixtureName in g && g[GlobalFixtureName] == Native(GlobalFixtureName, [configDir])
  {
    var afterScript := LoadScriptSpec(ConsoleGlobals(), fs, globalScript, interp).value;
    var bound := HostBindings(afterScript, testCaseParentFolder, configDir);
    RegisterKeeps(bound, extensions, PostName);
    RegisterKeeps(bound, extensions, LocalFixtureName);
    RegisterKeeps(bound, extensions, GlobalFixtureName);
  }

  /** Whatever else the global script left in the scope (Settings above all)
      survives into the sandbox unless an extension rebinds that name. */
  lemma GlobalScriptStateSurvives(fs: FileSystem, globalScript: Path, testCaseParentFolder: Path,
                                  configDir: Path, interp: Interpreter,
                                  extensions: seq<(string, JsVal)>, name: string)
    requires LoadScriptSpec(ConsoleGlobals(), fs, globalScript, interp).Returned?
    requires name != PostName && name != LocalFixtureName && name != GlobalFixtureName
    requires name !in Names(extensions)
    ensures var afterScript := LoadScriptSpec(ConsoleGlobals(), fs, globalScript, interp).value;
            var g := InitSpec(fs, globalScript, testCaseParentFolder, configDir, interp, extensions).value;
            && (name in g <==> name in afterScript)
            && (name in afterScript ==> g[name] == afterScript[name])
  {
    var afterScript := LoadScriptSpec(ConsoleGlobals(), fs, globalScript, interp).value;
    RegisterKeeps(HostBindings(afterScript, testCaseParentFolder, configDir), extensions, name);
  }

  /** SetupConsoleLog: binds `console`. */
  method SetupConsoleLog(vm: VM)
    modifies vm
    ensures vm.globals == old(vm.globals)[ConsoleName := ConsoleObject]
    ensures vm.history == old(vm.history) + [Bound(ConsoleName)]
  {
    vm.Set(ConsoleName, ConsoleObject);
  }

  /** SetUpClients: binds the Post bridge. The folder it is given is not used by
      the bridge, which reads everything else from the sandbox when called. */
  method SetUpClients(vm: VM, testCaseParentFolder: Path)
    modifies vm
    ensures vm.globals == old(vm.globals)[PostName := Native(PostName, [])]
    ensures vm.history == old(vm.history) + [Bound(PostName)]
  {
    vm.Set(PostName, Native(PostName, []));
  }

  /** SetUpTestFunction: binds the local and then the global fixture comparison. */
  method SetUpTestFunction(vm: VM, testCaseParentFolder: Path, configDir: Path)
    modifies vm
    ensures vm.globals == old(vm.globals)[LocalFixtureName := Native(LocalFixtureName, [testCaseParentFolder])]
                                         [GlobalFixtureName := Native(GlobalFixtureName, [configDir])]
    ensures vm.history == old(vm.history) + [Bound(LocalFixtureName), Bound(GlobalFixtureName)]
  {
    vm.Set(LocalFixtureName, Native(LocalFixtureName, [testCaseParentFolder]));
    vm.Set(GlobalFixtureName, Native(GlobalFixtureName, [configDir]));
  }

  /** SetUpExtensions: the extension hook binds its primitives, in order. */
  method SetUpExtensions(vm: VM, registrations: seq<(string, JsVal)>)
    modifies vm
    ensures vm.globals == Register(old(vm.globals), registrations)
    ensures vm.history == old(vm.history) + BoundEvents(registrations)
  {
    for i := 0 to |registrations|
      invariant vm.globals == Register(old(vm.globals), registrations[..i])
      invariant vm.history == old(vm.history) + BoundEvents(registrations[..i])
    {
      assert registrations[..i + 1][..i] == registrations[..i];
      vm.Set(registrations[i].0, registrations[i].1);
    }
    assert registrations[..|registrations|] == registrations;
  }

  /** InitializeVM: a fresh sandbox for one test case. On failure the source returns
      nil and its caller drops the sandbox; the model hands the abandoned sandbox
      back as well, so that what was bound and run in it can be stated. */
  method InitializeVM(globalScript: Path, testCaseParentFolder: Path, configDir: Path, fs: FileSystem,
                      interp: Interpreter, extensions: seq<(string, JsVal)>)
    returns (vm: VM, r: Go<()>)
    ensures fresh(vm)
    ensures r == Status(InitSpec(fs, globalScript, testCaseParentFolder, configDir, interp, extensions))
    ensures r.Returned? ==> vm.globals == InitSpec(fs, globalScript, testCaseParentFolder, configDir, interp, extensions).value
    ensures ReadFile(fs, globalScript).Failed? ==> vm.history == [Bound(ConsoleName)]
    ensures ReadFile(fs, globalScript).Returned? && !r.Returned? ==>
              vm.history == [Bound(ConsoleName), Ran(ReadFile(fs, globalScript).value, ConsoleGlobals())]
    ensures r.Returned? ==>
              vm.history == [Bound(ConsoleName), Ran(ReadFile(fs, globalScript).value, ConsoleGlobals()),
                             Bound(PostName), Bound(LocalFixtureName), Bound(GlobalFixtureName)]
                            + BoundEvents(extensions)
  {
    vm := new VM();
    SetupConsoleLog(vm);
    assert vm.globals == ConsoleGlobals();
    r := LoadScript(vm, fs, globalScript, interp);
    if !r.Returned? {
      return;
    }
    SetUpClients(vm, testCaseParentFolder);
    SetUpTestFunction(vm, testCaseParentFolder, configDir);
    SetUpExtensions(vm, extensions);
  }

  /** ExecuteConfigScript: runs a test script in its sandbox. */
  method ExecuteConfigScript(vm: VM, fs: FileSystem, filePath: Path, interp: Interpreter) returns (r: Go<()>)
    modifies vm
    ensures r == Status(LoadScriptSpec(old(vm.globals), fs, filePath, interp))
    ensures vm.globals == ScopeAfterLoad(old(vm.globals), fs, filePath, interp)
    ensures ReadFile(fs, filePath).Failed? ==> vm.history == old(vm.history)
    ensures ReadFile(fs, filePath).Returned? ==>
              vm.history == old(vm.history) + [Ran(ReadFile(fs, filePath).value, old(vm.globals))]
  {
    r := LoadScript(vm, fs, filePath, interp);
  }

  // ---------------------------------------------------------------------------
  // Fixture comparison

  /** The comparison both fixture primitives perform on a resolved path. It
      returns a message to the script in every case and never raises. */
  function CompareWithFixture(fs: FileSystem, filePath: Path, response: string): (r: string)
    ensures r == MatchMessage <==> filePath in fs && fs[filePath] == Content(response)
    ensures r == MismatchMessage <==> filePath in fs && fs[filePath].Content? && fs[filePath].text != response
    ensures (filePath !in fs || fs[filePath].Missing?) ==>
              r == "Expected result file does not exist: " + PathString(filePath)
    ensures filePath in fs && fs[filePath].ReadErr? ==>
              r == "Error reading file " + PathString(filePath) + ": " + fs[filePath].message
  {
    if filePath !in fs || fs[filePath].Missing? then
      var r := "Expected result file does not exist: " + PathString(filePath);
      assert r[0] != MatchMessage[0] && r[0] != MismatchMessage[0];
      r
    else if fs[filePath].ReadErr? then
      var r := "Error reading file " + PathString(filePath) + ": " + fs[filePath].message;
      assert r[0] != MatchMessage[0] && r[0] != MismatchMessage[0];
      r
    else if fs[filePath].text == response then MatchMessage
    else MismatchMessage
  }

  /** ResultIsLikeFile: the fixture is resolved under the test's own folder. */
  function ResultIsLikeFile(fs: FileSystem, testCaseParentFolder: Path, response: string, rel: Path): (r: string)
    ensures var path := testCaseParentFolder + rel;
            && (r == MatchMessage <==> path in fs && fs[path] == Content(response))
            && (r == MismatchMessage <==> path in fs && fs[path].Content? && fs[path].text != response)
            && ((path !in fs || fs[path].Missing?) ==> r == "Expected result file does not exist: " + PathString(path))
  {
    CompareWithFixture(fs, testCaseParentFolder + rel, response)
  }

  /** ResultIsLikeGlobalFile: the fixture is resolved under the shared results folder. */
  function ResultIsLikeGlobalFile(fs: FileSystem, configDir: Path, response: string, rel: Path): (r: string)
    ensures var path := configDir + ["globalTestFiles", "results"] + rel;
            && (r == MatchMessage <==> path in fs && fs[path] == Content(response))
            && (r == MismatchMessage <==> path in fs && fs[path].Content? && fs[path].text != response)
            && ((path !in fs || fs[path].Missing?) ==> r == "Expected result file does not exist: " + PathString(path))
  {
    CompareWithFixture(fs, configDir + GlobalResultsFolder + rel, response)
  }

  /** The global primitive is the local one with the shared results folder in
      place of the test's folder; so where the two resolved files hold the same
      text, both primitives give the same verdict. */
  lemma FixturePrimitivesAgree(fs: FileSystem, configDir: Path, testCaseParentFolder: Path,
                               response: string, rel: Path, globalRel: Path)
    ensures ResultIsLikeGlobalFile(fs, configDir, response, globalRel)
         == ResultIsLikeFile(fs, configDir + GlobalResultsFolder, response, globalRel)
    ensures var local := testCaseParentFolder + rel;
            var global := configDir + GlobalResultsFolder + globalRel;
            local in fs && global in fs && fs[local] == fs[global] && fs[local].Content? ==>
              ResultIsLikeFile(fs, testCaseParentFolder, response, rel)
              == ResultIsLikeGlobalFile(fs, configDir, response, globalRel)
  {
    assert configDir + GlobalResultsFolder + globalRel == (configDir + GlobalResultsFolder) + globalRel;
  }

  // ---------------------------------------------------------------------------
  // The Post bridge

  /** What a call of Post hands back to the script: a value, a JavaScript error it
      raises, or a Go panic. */
  datatype PostOutcome = Returns(value: JsVal) | Throws(errorName: string, message: string) | Panics(reason: string)

  function ResponseObject(response: string, body: string): JsVal
  {
    Obj(map["response" := Str(response), "body" := Str(body)])
  }

  /** The decision logic of the Post closure, given how header and base-URL
      resolution went: headers first, then the base URL, then the transport. */
  function PostDecision(headers: Go<map<string, string>>, baseUrl: Go<string>, url: string, data: JsVal,
                        send: Transport): (r: PostOutcome)
    ensures r.Panics? <==> headers.Panicked? || (headers.Returned? && baseUrl.Panicked?)
    ensures r.Throws? <==> headers.Returned? && baseUrl.Returned?
                           && send(baseUrl.value + url, headers.value, data).Undelivered?
    ensures r.Throws? ==> r.errorName == CustomErrorName
    ensures headers.Failed? ==> r == Returns(Str("Error: " + headers.error))
    ensures headers.Returned? && baseUrl.Failed? ==> r == Returns(Str("Error: " + baseUrl.error))
  {
    match headers
    case Panicked(p) => Panics(p)
    case Failed(e) => Returns(Str("Error: " + e))
    case Returned(h) =>
      match baseUrl
      case Panicked(p) => Panics(p)
      case Failed(e) => Returns(Str("Error: " + e))
      case Returned(base) =>
        match PostRequest(base, url, h, data, send)
        case Failed(e) => Throws(CustomErrorName, e)
        case Panicked(p) => Panics(p)
        case Returned(sent) => Returns(ResponseObject(sent.0, sent.1))
  }

  /** Post: resolves the current headers and base URL of its own sandbox, then sends. */
  method Post(vm: VM, url: string, data: JsVal, send: Transport) returns (r: PostOutcome)
    ensures exists h :: IsHeadersResult(vm.globals, h) && r == PostDecision(h, GetBaseUrl(vm.globals), url, data, send)
  {
    var headers := GetHeaders(vm);
    r := PostDecision(headers, GetBaseUrl(vm.globals), url, data, send);
  }

  /** A header error comes back to the script as the string "Error: <msg>", is
      never raised, and nothing is sent: the outcome does not depend on the
      transport, nor on the base URL, which is resolved only after the headers. */
  lemma PostSettingsErrorIsValue(headers: Go<map<string, string>>, b1: Go<string>, b2: Go<string>, url: string,
                                 data: JsVal, s1: Transport, s2: Transport)
    requires headers.Failed?
    ensures PostDecision(headers, b1, url, data, s1) == PostDecision(headers, b2, url, data, s2)
    ensures PostDecision(headers, b1, url, data, s1) == Returns(Str("Error: " + headers.error))
  {
  }

  /** With headers and base URL resolved, Post sends exactly one request, to
      baseUrl + url with those headers and the script's payload: its outcome is
      decided by what the transport does with that request alone. A transport
      error is raised as an "Error To Js" error carrying the wrapped error text;
      a delivery comes back as an object with exactly the fields response and body. */
  lemma PostSendsOneRequest(h: map<string, string>, base: string, url: string, data: JsVal,
                            s1: Transport, s2: Transport)
    requires s1(base + url, h, data) == s2(base + url, h, data)
    ensures PostDecision(Returned(h), Returned(base), url, data, s1)
         == PostDecision(Returned(h), Returned(base), url, data, s2)
    ensures var d := s1(base + url, h, data);
            var r := PostDecision(Returned(h), Returned(base), url, data, s1);
            && (d.Undelivered? ==> r == Throws(CustomErrorName, "Error making POST request: " + d.message))
            && (d.Delivered? ==> r.Returns? && r.value.Obj? && r.value.props.Keys == {"response", "body"}
                                 && r.value.props["response"] == Str(d.response)
                                 && r.value.props["body"] == Str(d.body))
  {
  }

  /** Post reads nothing of the sandbox but Settings, and reads it when called:
      two scopes that agree on Settings give the same outcomes, whatever else
      either holds. */
  lemma PostDependsOnlyOnSettings(g1: Globals, g2: Globals, url: string, data: JsVal, send: Transport)
    requires SettingsName in g1 <==> SettingsName in g2
    requires SettingsName in g1 ==> g1[SettingsName] == g2[SettingsName]
    ensures forall h :: IsHeadersResult(g1, h) <==> IsHeadersResult(g2, h)
    ensures forall h :: PostDecision(h, GetBaseUrl(g1), url, data, send) == PostDecision(h, GetBaseUrl(g2), url, data, send)
  {
    assert GetSettings(g1) == GetSettings(g2);
  }

  // ---------------------------------------------------------------------------
  // Console

  function Shown(arguments: seq<JsVal>, show: JsVal -> string): (r: seq<string>)
    ensures |r| == |arguments|
    ensures forall k :: 0 <= k < |arguments| ==> r[k] == show(arguments[k])
  {
    seq(|arguments|, k requires 0 <= k < |arguments| => show(arguments[k]))
  }

  /** formatForConsole: the %v rendering (`show`) of every argument, separated by
      single spaces; splitting the line at its spaces gives the renderings back
      when none of them contains a space. */
  method FormatForConsole(arguments: seq<JsVal>, show: JsVal -> string) returns (line: string)
    ensures line == Join(Shown(arguments, show), ' ')
    ensures |arguments| == 0 ==> line == ""
    ensures |arguments| > 0 && (forall k :: 0 <= k < |arguments| ==> ' ' !in show(arguments[k])) ==>
              Split(line, ' ') == Shown(arguments, show)
  {
    var output: seq<string> := [];
    for i := 0 to |arguments|
      invariant output == Shown(arguments[..i], show)
    {
      output := output + [show(arguments[i])];
    }
    assert arguments[..|arguments|] == arguments;
    line := Join(output, ' ');
    if |arguments| > 0 && (forall k :: 0 <= k < |arguments| ==> ' ' !in show(arguments[k])) {
      SplitJoin(output, ' ');
    }
  }
}
