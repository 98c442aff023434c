/**
 * Test discovery, the per-test run loop and the grouping of results by folder.
 * The directory walk, the file system and the interpreter are inputs.
 */
module Orchestrator {
  import opened Host
  import opened Sandbox
  import opened Config
  import opened Vm

  const GlobalScriptName := "globalScript.js"
  const ScriptSuffix := ".js"
  const InitErrorPrefix := "error initializing VM: "

  /** One discovered test case and, once it has run, its outcome. */
  datatype TestCaseFileInfo = TestCaseFileInfo(relativeParentFolder: Path, filename: string, passed: bool,
                                               err: Option<string>)

  /** What filepath.Walk hands its callback, in walk order: a visited path, given
      relative to the walk root (the root itself is []), or an error. */
  datatype WalkItem = Visit(relPath: Path, isDir: bool) | WalkError(message: string)

  /** The environment every test runs in: the files, the interpreter and the
      registrations of the extension hook. */
  datatype Env = Env(fs: FileSystem, interp: Interpreter, extensions: seq<(string, JsVal)>)

  // ---------------------------------------------------------------------------
  // Discovery

  /** The walk root: the config directory, narrowed to the subset when one is given. */
  function RootPath(configDir: Path, subSet: Path): Path
  {
    if subSet == [] then configDir else configDir + subSet
  }

  /** filepath.Rel for a target inside base. */
  function Rel(base: Path, target: Path): Path
    requires base <= target
  {
    target[|base|..]
  }

  function FullPath(configDir: Path, subSet: Path, item: WalkItem): Path
    requires item.Visit?
  {
    RootPath(configDir, subSet) + item.relPath
  }

  /** A visited file that is listed as a test case. */
  predicate IsTestScript(configDir: Path, subSet: Path, item: WalkItem)
  {
    && item.Visit?
    && !item.isDir
    && EndsWith(Base(FullPath(configDir, subSet, item)), ScriptSuffix)
    && Base(FullPath(configDir, subSet, item)) != GlobalScriptName
  }

  /** The record discovery makes for a visited file: its folder relative to the
      config directory, and its name. */
  function Entry(configDir: Path, subSet: Path, item: WalkItem): TestCaseFileInfo
    requires item.Visit?
  {
    var path := FullPath(configDir, subSet, item);
    TestCaseFileInfo(Dir(Rel(configDir, path)), Base(path), false, None)
  }

  /** The test cases a walk without errors yields, in walk order. */
  function Discovered(configDir: Path, subSet: Path, walk: seq<WalkItem>): seq<TestCaseFileInfo>
  {
    if walk == [] then []
    else
      var last := walk[|walk| - 1];
      Discovered(configDir, subSet, walk[..|walk| - 1])
      + if IsTestScript(configDir, subSet, last) then [Entry(configDir, subSet, last)] else []
  }

  /** The text of the first error in a walk. */
  function FirstWalkError(walk: seq<WalkItem>): Option<string>
  {
    if walk == [] then None
    else
      var earlier := FirstWalkError(walk[..|walk| - 1]);
      if earlier.Some? then earlier
      else if walk[|walk| - 1].WalkError? then Some(walk[|walk| - 1].message)
      else None
  }

  function WalkFailure(configDir: Path, subSet: Path, walk: seq<WalkItem>): Option<string>
  {
    match FirstWalkError(walk)
    case None => None
    case Some(m) => Some("error walking the path " + PathString(RootPath(configDir, subSet)) + ": " + m)
  }

  /** An error in a prefix of the walk is the first error of the whole walk. */
  lemma {:induction false} FirstWalkErrorExtends(walk: seq<WalkItem>, k: nat)
    requires k <= |walk|
    requires FirstWalkError(walk[..k]).Some?
    ensures FirstWalkError(walk) == FirstWalkError(walk[..k])
    decreases |walk| - k
  {
    if k < |walk| {
      assert walk[..k + 1][..k] == walk[..k];
      FirstWalkErrorExtends(walk, k + 1);
    } else {
      assert walk[..k] == walk;
    }
  }

  /** GetListOfTestCases: walks the root and lists every script other than the
      global script; the first walk error ends the walk and is returned, wrapped
      with the walk root, with no list. */
  method GetListOfTestCases(configDir: Path, subSet: Path, walk: seq<WalkItem>)
    returns (files: seq<TestCaseFileInfo>, err: Option<string>)
    ensures err == WalkFailure(configDir, subSet, walk)
    ensures err.Some? ==> files == []
    ensures err.None? ==> files == Discovered(configDir, subSet, walk)
  {
    files, err := [], None;
    var rootPath := configDir;
    if subSet != [] {
      rootPath := configDir + subSet;
    }
    var i := 0;
    while i < |walk|
      invariant 0 <= i <= |walk|
      invariant FirstWalkError(walk[..i]) == None
      invariant files == Discovered(configDir, subSet, walk[..i])
    {
      var item := walk[i];
      assert walk[..i + 1][..i] == walk[..i];
      if item.WalkError? {
        assert walk[..i + 1][i] == item;
        FirstWalkErrorExtends(walk, i + 1);
        return [], Some("error walking the path " + PathString(rootPath) + ": " + item.message);
      }
      var path := rootPath + item.relPath;
      if !item.isDir && EndsWith(Base(path), ScriptSuffix) {
        var relPath := Rel(configDir, path);
        if Base(path) != GlobalScriptName {
          files := files + [TestCaseFileInfo(Dir(relPath), Base(path), false, None)];
        }
      }
      i := i + 1;
    }
    assert walk[..|walk|] == walk;
  }

  /** The global script is never listed, wherever it sits in the tree. */
  lemma {:induction false} DiscoveredNeverGlobalScript(configDir: Path, subSet: Path, walk: seq<WalkItem>)
    ensures forall f :: f in Discovered(configDir, subSet, walk) ==> f.filename != GlobalScriptName
  {
    if walk != [] {
      DiscoveredNeverGlobalScript(configDir, subSet, walk[..|walk| - 1]);
    }
  }

  /** Discovery keeps walk order: the list for two stretches of walk is the list
      for the first followed by the list for the second. */
  lemma {:induction false} DiscoveredAppend(configDir: Path, subSet: Path, w1: seq<WalkItem>, w2: seq<WalkItem>)
    ensures Discovered(configDir, subSet, w1 + w2) == Discovered(configDir, subSet, w1) + Discovered(configDir, subSet, w2)
    decreases |w2|
  {
    if w2 == [] {
      assert w1 + w2 == w1;
    } else {
      var n := |w2|;
      assert (w1 + w2)[..|w1 + w2| - 1] == w1 + w2[..n - 1];
      assert (w1 + w2)[|w1 + w2| - 1] == w2[n - 1];
      DiscoveredAppend(configDir, subSet, w1, w2[..n - 1]);
    }
  }

  /** Every listed test case comes from a visited non-directory whose name ends in
      ".js" and is not the global script; it has not run yet; and rejoining its
      folder and name onto the config directory gives the visited path back, so
      the folder is relative to the config directory even under a subset. */
  lemma {:induction false} DiscoveredSound(configDir: Path, subSet: Path, walk: seq<WalkItem>)
    ensures forall f :: f in Discovered(configDir, subSet, walk) ==>
              exists j :: 0 <= j < |walk| && walk[j].Visit? && !walk[j].isDir
                          && f.filename == Base(FullPath(configDir, subSet, walk[j]))
                          && EndsWith(f.filename, ScriptSuffix) && f.filename != GlobalScriptName
                          && !f.passed && f.err == None
                          && (subSet + walk[j].relPath != [] ==>
                                configDir + f.relativeParentFolder + [f.filename] == FullPath(configDir, subSet, walk[j]))
  {
    if walk != [] {
      var n := |walk|;
      var front := walk[..n - 1];
      DiscoveredSound(configDir, subSet, front);
      forall f | f in Discovered(configDir, subSet, walk)
        ensures exists j :: 0 <= j < n && walk[j].Visit? && !walk[j].isDir
                            && f.filename == Base(FullPath(configDir, subSet, walk[j]))
                            && EndsWith(f.filename, ScriptSuffix) && f.filename != GlobalScriptName
                            && !f.passed && f.err == None
                            && (subSet + walk[j].relPath != [] ==>
                                  configDir + f.relativeParentFolder + [f.filename] == FullPath(configDir, subSet, walk[j]))
      {
        if f in Discovered(configDir, subSet, front) {
          var j :| 0 <= j < n - 1 && front[j].Visit? && !front[j].isDir
                   && f.filename == Base(FullPath(configDir, subSet, front[j]))
                   && EndsWith(f.filename, ScriptSuffix) && f.filename != GlobalScriptName
                   && !f.passed && f.err == None
                   && (subSet + front[j].relPath != [] ==>
                         configDir + f.relativeParentFolder + [f.filename] == FullPath(configDir, subSet, front[j]));
          assert walk[j] == front[j];
        } else if subSet + walk[n - 1].relPath != [] {
          EntryRejoins(configDir, subSet, walk[n - 1]);
        }
      }
    }
  }

  /** The folder and name recorded for a visited file rejoin to its path. */
  lemma EntryRejoins(configDir: Path, subSet: Path, item: WalkItem)
    requires item.Visit?
    requires subSet + item.relPath != []
    ensures var f := Entry(configDir, subSet, item);
            configDir + f.relativeParentFolder + [f.filename] == FullPath(configDir, subSet, item)
  {
    var path := FullPath(configDir, subSet, item);
    var rel := Rel(configDir, path);
    assert path == configDir + (subSet + item.relPath);
    assert rel == subSet + item.relPath;
    assert Base(path) == Base(rel);
    assert Dir(rel) + [Base(rel)] == rel;
  }

  /** Every visited script other than the global script is listed. */
  lemma {:induction false} DiscoveredComplete(configDir: Path, subSet: Path, walk: seq<WalkItem>)
    ensures forall j :: 0 <= j < |walk| && IsTestScript(configDir, subSet, walk[j]) ==>
              Entry(configDir, subSet, walk[j]) in Discovered(configDir, subSet, walk)
  {
    if walk != [] {
      var n := |walk|;
      var front := walk[..n - 1];
      DiscoveredComplete(configDir, subSet, front);
      forall j | 0 <= j < n && IsTestScript(configDir, subSet, walk[j])
        ensures Entry(configDir, subSet, walk[j]) in Discovered(configDir, subSet, walk)
      {
        if j < n - 1 {
          assert front[j] == walk[j];
        }
      }
    }
  }

  // ---------------------------------------------------------------------------
  // Running

  /** How one test case ends. */
  datatype Verdict = InitFailed(error: string) | ScriptFailed(error: string) | ScriptPassed | HostPanic(reason: string)

  /** The verdict on one test case: a fresh sandbox is built for it with the
      global script, then the test's own script runs in that sandbox. It depends
      on the test case and the environment alone, never on other test cases. */
  function Judge(env: Env, configDir: Path, t: TestCaseFileInfo): (r: Verdict)
    ensures r.InitFailed? <==> LoadScriptSpec(ConsoleGlobals(), env.fs, configDir + [GlobalScriptName], env.interp).Failed?
    ensures r.InitFailed? ==> r.error == LoadScriptSpec(ConsoleGlobals(), env.fs, configDir + [GlobalScriptName], env.interp).error
    ensures r.ScriptPassed? ==> ReadFile(env.fs, configDir + t.relativeParentFolder + [t.filename]).Returned?
    ensures !r.InitFailed? && !r.HostPanic? && ReadFile(env.fs, configDir + t.relativeParentFolder + [t.filename]).Failed? ==>
              r == ScriptFailed(ReadError(configDir + t.relativeParentFolder + [t.filename],
                                          ReadFile(env.fs, configDir + t.relativeParentFolder + [t.filename]).error))
  {
    var testCaseParentFolder := configDir + t.relativeParentFolder;
    match InitSpec(env.fs, configDir + [GlobalScriptName], testCaseParentFolder, configDir, env.interp, env.extensions)
    case Failed(e) => InitFailed(e)
    case Panicked(p) => HostPanic(p)
    case Returned(sandbox) =>
      match LoadScriptSpec(sandbox, env.fs, testCaseParentFolder + [t.filename], env.interp)
      case Failed(e) => ScriptFailed(e)
      case Panicked(p) => HostPanic(p)
      case Returned(_) => ScriptPassed
  }

  predicate Settles(v: Verdict)
  {
    v.ScriptPassed? || v.ScriptFailed?
  }

  /** The record of a test case whose script ran: success sets Passed and leaves
      Err alone; failure clears Passed and stores the error. */
  function Settle(t: TestCaseFileInfo, v: Verdict): TestCaseFileInfo
    requires Settles(v)
  {
    if v.ScriptPassed? then t.(passed := true) else t.(passed := false, err := Some(v.error))
  }

  /** How the loop over the test list ends. */
  datatype LoopEnd = AllRan(tests: seq<TestCaseFileInfo>)
                   | StoppedAt(tests: seq<TestCaseFileInfo>, index: nat, error: string)
                   | PanickedAt(index: nat, reason: string)

  /** The loop of RunTests from test i on, over the list as it stands. */
  function RunLoop(env: Env, configDir: Path, tests: seq<TestCaseFileInfo>, i: nat): LoopEnd
    requires i <= |tests|
    decreases |tests| - i
  {
    if i == |tests| then AllRan(tests)
    else
      match Judge(env, configDir, tests[i])
      case InitFailed(e) =>
        StoppedAt(tests[i := tests[i].(passed := false, err := Some(InitErrorPrefix + e))], i, InitErrorPrefix + e)
      case HostPanic(p) => PanickedAt(i, p)
      case ScriptFailed(e) => RunLoop(env, configDir, tests[i := tests[i].(passed := false, err := Some(e))], i + 1)
      case ScriptPassed => RunLoop(env, configDir, tests[i := tests[i].(passed := true)], i + 1)
  }

  /** What RunTests ends with. */
  datatype RunResult =
    | Summarised(tests: seq<TestCaseFileInfo>, report: Report)
    | InitAborted(tests: seq<TestCaseFileInfo>, index: nat, error: string)
    | DiscoveryFailed(error: string)
    | RunPanicked(reason: string)

  function RunSpec(configDir: Path, subSet: Path, walk: seq<WalkItem>, env: Env): RunResult
  {
    match WalkFailure(configDir, subSet, walk)
    case Some(e) => DiscoveryFailed(e)
    case None =>
      match RunLoop(env, configDir, Discovered(configDir, subSet, walk), 0)
      case AllRan(tests) => Summarised(tests, Summary(tests))
      case StoppedAt(tests, k, e) => InitAborted(tests, k, e)
      case PanickedAt(_, p) => RunPanicked(p)
  }

  /** RunTests: discovers the test cases and runs them one by one, each in a fresh
      sandbox. A sandbox that cannot be built marks its test failed and ends the
      whole run with that error; a failing test script only marks its test
      failed; when every test has run, the results are summarised. The test list
      is updated in place. */
  method RunTests(configDir: Path, subSet: Path, walk: seq<WalkItem>, env: Env) returns (r: RunResult)
    ensures r == RunSpec(configDir, subSet, walk, env)
  {
    var files, err := GetListOfTestCases(configDir, subSet, walk);
    if err.Some? {
      return DiscoveryFailed(err.value);
    }
    var globalScript := configDir + [GlobalScriptName];
    var testList := new TestCaseFileInfo[|files|](k requires 0 <= k < |files| => files[k]);
    assert testList[..] == files;
    var i := 0;
    while i < testList.Length
      invariant 0 <= i <= testList.Length == |files|
      invariant RunLoop(env, configDir, testList[..], i) == RunLoop(env, configDir, files, 0)
    {
      var testCase := testList[i];
      var testCaseFile := configDir + testCase.relativeParentFolder + [testCase.filename];
      var testCaseParentFolder := configDir + testCase.relativeParentFolder;
      assert testCaseFile == testCaseParentFolder + [testCase.filename];

      var vm, initStatus := InitializeVM(globalScript, testCaseParentFolder, configDir, env.fs, env.interp, env.extensions);
      if initStatus.Panicked? {
        return RunPanicked(initStatus.reason);
      }
      if initStatus.Failed? {
        testList[i] := testList[i].(passed := false, err := Some(InitErrorPrefix + initStatus.error));
        return InitAborted(testList[..], i, InitErrorPrefix + initStatus.error);
      }

      var status := ExecuteConfigScript(vm, env.fs, testCaseFile, env.interp);
      if status.Panicked? {
        return RunPanicked(status.reason);
      }
      if status.Failed? {
        testList[i] := testList[i].(passed := false, err := Some(status.error));
        i := i + 1;
        continue;
      }

      testList[i] := testList[i].(passed := true);
      i := i + 1;
    }
    var report := SumTestResults(testList[..]);
    return Summarised(testList[..], report);
  }

  /** A loop that ran to the end settled every test from i on by its own verdict
      and left the earlier ones as they were. */
  lemma {:induction false} RunLoopAllRan(env: Env, configDir: Path, tests: seq<TestCaseFileInfo>, i: nat)
    requires i <= |tests|
    requires RunLoop(env, configDir, tests, i).AllRan?
    ensures var final := RunLoop(env, configDir, tests, i).tests;
            && |final| == |tests| && final[..i] == tests[..i]
            && forall j :: i <= j < |tests| ==>
                 Settles(Judge(env, configDir, tests[j])) && final[j] == Settle(tests[j], Judge(env, configDir, tests[j]))
    decreases |tests| - i
  {
    if i < |tests| {
      var v := Judge(env, configDir, tests[i]);
      var next := tests[i := Settle(tests[i], v)];
      RunLoopAllRan(env, configDir, next, i + 1);
      var final := RunLoop(env, configDir, tests, i).tests;
      assert final == RunLoop(env, configDir, next, i + 1).tests;
      assert final[..i] == next[..i + 1][..i];
      assert final[i] == final[..i + 1][i] == next[i];
      forall j | i < j < |tests|
        ensures Settles(Judge(env, configDir, tests[j])) && final[j] == Settle(tests[j], Judge(env, configDir, tests[j]))
      {
        assert next[j] == tests[j];
      }
    }
  }

  /** Whether a sandbox can be built does not depend on the test: the global
      script is the same file, run over the same console-only scope, for every
      test case, and a failure carries the same error. */
  lemma InitOutcomeSharedByAllTests(env: Env, configDir: Path, t1: TestCaseFileInfo, t2: TestCaseFileInfo)
    ensures Judge(env, configDir, t1).InitFailed? <==> Judge(env, configDir, t2).InitFailed?
    ensures Judge(env, configDir, t1).InitFailed? ==> Judge(env, configDir, t1) == Judge(env, configDir, t2)
    ensures Judge(env, configDir, t1).InitFailed? <==>
              LoadScriptSpec(ConsoleGlobals(), env.fs, configDir + [GlobalScriptName], env.interp).Failed?
  {
  }

  /** A loop in which every sandbox can be built never stops early. */
  lemma {:induction false} RunLoopNeverStops(env: Env, configDir: Path, tests: seq<TestCaseFileInfo>, i: nat)
    requires i <= |tests|
    requires forall j :: i <= j < |tests| ==> !Judge(env, configDir, tests[j]).InitFailed?
    ensures !RunLoop(env, configDir, tests, i).StoppedAt?
    decreases |tests| - i
  {
    if i < |tests| {
      var v := Judge(env, configDir, tests[i]);
      if Settles(v) {
        var next := tests[i := Settle(tests[i], v)];
        assert forall j :: i + 1 <= j < |next| ==> next[j] == tests[j];
        RunLoopNeverStops(env, configDir, next, i + 1);
      }
    }
  }

  /** A loop that stops does so at the test it starts with, marking that test
      failed with the wrapped error and leaving every other test untouched. */
  lemma RunLoopStopsAtOnce(env: Env, configDir: Path, tests: seq<TestCaseFileInfo>, i: nat)
    requires i <= |tests|
    requires RunLoop(env, configDir, tests, i).StoppedAt?
    ensures var end := RunLoop(env, configDir, tests, i);
            && end.index == i < |tests|
            && Judge(env, configDir, tests[i]).InitFailed?
            && end.error == InitErrorPrefix + Judge(env, configDir, tests[i]).error
            && end.tests == tests[i := tests[i].(passed := false, err := Some(end.error))]
  {
    var v := Judge(env, configDir, tests[i]);
    if !v.InitFailed? {
      var next := tests[i := Settle(tests[i], v)];
      forall j | i + 1 <= j < |next| ensures !Judge(env, configDir, next[j]).InitFailed? {
        InitOutcomeSharedByAllTests(env, configDir, tests[i], next[j]);
      }
      RunLoopNeverStops(env, configDir, next, i + 1);
      assert false;
    }
  }

  /** After a complete run every test case carries exactly one of Passed and Err,
      was judged by its own verdict alone, kept its folder and name, and the
      report summarises exactly these records. */
  lemma FullRunSettlesEveryTest(configDir: Path, subSet: Path, walk: seq<WalkItem>, env: Env)
    requires RunSpec(configDir, subSet, walk, env).Summarised?
    ensures var files := Discovered(configDir, subSet, walk);
            var tests := RunSpec(configDir, subSet, walk, env).tests;
            && |tests| == |files|
            && RunSpec(configDir, subSet, walk, env).report == Summary(tests)
            && forall j :: 0 <= j < |tests| ==>
                 && Settles(Judge(env, configDir, files[j]))
                 && tests[j] == Settle(files[j], Judge(env, configDir, files[j]))
                 && tests[j].relativeParentFolder == files[j].relativeParentFolder
                 && tests[j].filename == files[j].filename
                 && (tests[j].passed <==> tests[j].err.None?)
  {
    var files := Discovered(configDir, subSet, walk);
    RunLoopAllRan(env, configDir, files, 0);
    DiscoveredSound(configDir, subSet, walk);
    forall j | 0 <= j < |files| ensures files[j].err == None {
      assert files[j] in files;
    }
  }

  /** When a sandbox cannot be built, the run ends at the first test, since every
      test shares the global script: that test is failed with "error
      initializing VM: ..." (the error the run returns), every other test is left
      as discovery made it, no test script has run, and no summary is produced. */
  lemma InitFailureAbortsRun(configDir: Path, subSet: Path, walk: seq<WalkItem>, env: Env)
    requires RunSpec(configDir, subSet, walk, env).InitAborted?
    ensures var files := Discovered(configDir, subSet, walk);
            var result := RunSpec(configDir, subSet, walk, env);
            && result.index == 0 < |files|
            && Judge(env, configDir, files[0]).InitFailed?
            && result.error == InitErrorPrefix + Judge(env, configDir, files[0]).error
            && result.tests == files[0 := files[0].(passed := false, err := Some(result.error))]
            && forall j :: 0 < j < |files| ==> !result.tests[j].passed && result.tests[j].err == None
  {
    var files := Discovered(configDir, subSet, walk);
    RunLoopStopsAtOnce(env, configDir, files, 0);
    DiscoveredSound(configDir, subSet, walk);
    forall j | 0 < j < |files| ensures !files[j].passed && files[j].err == None {
      assert files[j] in files;
    }
  }

  /** A run over a non-empty test list is aborted exactly when the global script
      cannot be read or throws. */
  lemma RunAbortsExactlyWhenGlobalScriptFails(configDir: Path, subSet: Path, walk: seq<WalkItem>, env: Env)
    requires WalkFailure(configDir, subSet, walk).None?
    requires Discovered(configDir, subSet, walk) != []
    ensures RunSpec(configDir, subSet, walk, env).InitAborted? <==>
              LoadScriptSpec(ConsoleGlobals(), env.fs, configDir + [GlobalScriptName], env.interp).Failed?
  {
    var files := Discovered(configDir, subSet, walk);
    var v := Judge(env, configDir, files[0]);
    InitOutcomeSharedByAllTests(env, configDir, files[0], files[0]);
    if Settles(v) {
      var next := files[0 := Settle(files[0], v)];
      forall j | 1 <= j < |next| ensures !Judge(env, configDir, next[j]).InitFailed? {
        InitOutcomeSharedByAllTests(env, configDir, files[0], next[j]);
      }
      RunLoopNeverStops(env, configDir, next, 1);
    }
  }

  // ---------------------------------------------------------------------------
  // Summary

  /** What SumTestResults reports: the number of tests, the file names grouped by
      folder for passed and for failed tests, and the number it prints as the
      count of failed tests, which is the number of folders with a failure. */
  datatype Report = Report(total: nat, passedByPath: map<Path, seq<string>>,
                           failedByPath: map<Path, seq<string>>, failedGroups: nat)

  /** A Go map read at a missing key gives the nil slice. */
  function Lookup(m: map<Path, seq<string>>, key: Path): seq<string>
  {
    if key in m then m[key] else []
  }

  /** The map the loop of SumTestResults builds for one side (passed or failed). */
  function Group(tests: seq<TestCaseFileInfo>, passed: bool): map<Path, seq<string>>
  {
    if tests == [] then map[]
    else
      var m := Group(tests[..|tests| - 1], passed);
      var t := tests[|tests| - 1];
      if t.passed == passed then m[t.relativeParentFolder := Lookup(m, t.relativeParentFolder) + [t.filename]]
      else m
  }

  function Summary(tests: seq<TestCaseFileInfo>): Report
  {
    Report(|tests|, Group(tests, true), Group(tests, false), |Group(tests, false)|)
  }

  /** SumTestResults: groups the final list by folder into passed and failed
      names. The console output is not modelled; what it prints is the report. */
  method SumTestResults(testList: seq<TestCaseFileInfo>) returns (report: Report)
    ensures report == Summary(testList)
  {
    var passedByPath: map<Path, seq<string>> := map[];
    var failedByPath: map<Path, seq<string>> := map[];
    for i := 0 to |testList|
      invariant passedByPath == Group(testList[..i], true)
      invariant failedByPath == Group(testList[..i], false)
    {
      var test := testList[i];
      assert testList[..i + 1][..i] == testList[..i];
      if test.passed {
        passedByPath := passedByPath[test.relativeParentFolder := Lookup(passedByPath, test.relativeParentFolder) + [test.filename]];
      } else {
        failedByPath := failedByPath[test.relativeParentFolder := Lookup(failedByPath, test.relativeParentFolder) + [test.filename]];
      }
    }
    assert testList[..|testList|] == testList;
    report := Report(|testList|, passedByPath, failedByPath, |failedByPath|);
  }

  /** The file names of the tests in one folder with the given outcome, in list order. */
  function Bucket(tests: seq<TestCaseFileInfo>, folder: Path, passed: bool): seq<string>
  {
    if tests == [] then []
    else
      (if tests[0].relativeParentFolder == folder && tests[0].passed == passed then [tests[0].filename] else [])
      + Bucket(tests[1..], folder, passed)
  }

  /** The file names of all tests in one folder, in list order. */
  function FolderFiles(tests: seq<TestCaseFileInfo>, folder: Path): seq<string>
  {
    if tests == [] then []
    else
      (if tests[0].relativeParentFolder == folder then [tests[0].filename] else [])
      + FolderFiles(tests[1..], folder)
  }

  lemma {:induction false} BucketAppend(tests: seq<TestCaseFileInfo>, t: TestCaseFileInfo, folder: Path, passed: bool)
    ensures Bucket(tests + [t], folder, passed)
         == Bucket(tests, folder, passed) + (if t.relativeParentFolder == folder && t.passed == passed then [t.filename] else [])
  {
    if tests == [] {
      assert [t][1..] == [];
    } else {
      assert (tests + [t])[1..] == tests[1..] + [t];
      BucketAppend(tests[1..], t, folder, passed);
    }
  }

  /** The maps SumTestResults builds hold, for each folder, exactly the names of
      that folder's passed (failed) tests in list order, and no folder without one. */
  lemma {:induction false} GroupIsBucket(tests: seq<TestCaseFileInfo>, passed: bool)
    ensures forall p :: p in Group(tests, passed) <==> Bucket(tests, p, passed) != []
    ensures forall p :: p in Group(tests, passed) ==> Group(tests, passed)[p] == Bucket(tests, p, passed)
  {
    if tests != [] {
      var n := |tests|;
      var front := tests[..n - 1];
      var t := tests[n - 1];
      GroupIsBucket(front, passed);
      assert front + [t] == tests;
      forall p ensures Bucket(tests, p, passed)
                    == Bucket(front, p, passed) + (if t.relativeParentFolder == p && t.passed == passed then [t.filename] else [])
      {
        BucketAppend(front, t, p, passed);
      }
    }
  }

  /** Every test lands in exactly one of the two buckets of its folder: the two
      buckets together hold each name of the folder as often as the list does. */
  lemma {:induction false} BucketsPartitionFolder(tests: seq<TestCaseFileInfo>, folder: Path)
    ensures multiset(Bucket(tests, folder, true)) + multiset(Bucket(tests, folder, false))
         == multiset(FolderFiles(tests, folder))
  {
    if tests != [] {
      BucketsPartitionFolder(tests[1..], folder);
    }
  }

  /** The folders that hold at least one failed test. */
  function FailedFolders(tests: seq<TestCaseFileInfo>): set<Path>
  {
    set t | t in tests && !t.passed :: t.relativeParentFolder
  }

  function FailedCount(tests: seq<TestCaseFileInfo>): nat
  {
    if tests == [] then 0 else (if tests[0].passed then 0 else 1) + FailedCount(tests[1..])
  }

  lemma {:induction false} BucketNonEmpty(tests: seq<TestCaseFileInfo>, folder: Path, passed: bool)
    ensures Bucket(tests, folder, passed) != [] <==>
              exists t :: t in tests && t.relativeParentFolder == folder && t.passed == passed
  {
    if tests != [] {
      BucketNonEmpty(tests[1..], folder, passed);
      assert forall t :: t in tests <==> t == tests[0] || t in tests[1..];
    }
  }

  lemma {:induction false} FailedFoldersAtMostFailedTests(tests: seq<TestCaseFileInfo>)
    ensures |FailedFolders(tests)| <= FailedCount(tests)
  {
    if tests != [] {
      FailedFoldersAtMostFailedTests(tests[1..]);
      var t := tests[0];
      assert FailedFolders(tests) <= FailedFolders(tests[1..]) + (if t.passed then {} else {t.relativeParentFolder}) by {
        forall p | p in FailedFolders(tests)
          ensures p in FailedFolders(tests[1..]) + (if t.passed then {} else {t.relativeParentFolder})
        {
          var u :| u in tests && !u.passed && u.relativeParentFolder == p;
          if u != t {
            assert u in tests[1..];
          }
        }
      }
      SubsetNoLarger(FailedFolders(tests), FailedFolders(tests[1..]) + (if t.passed then {} else {t.relativeParentFolder}));
    }
  }

  lemma SubsetNoLarger<T>(a: set<T>, b: set<T>)
    requires a <= b
    ensures |a| <= |b|
  {
    assert b == a + (b - a);
    assert a * (b - a) == {};
  }

  /** The count printed as "tests failed" is the number of folders holding a
      failed test: at most the number of failed tests, and zero exactly when
      every test passed. */
  lemma FailedGroupsCountsFolders(tests: seq<TestCaseFileInfo>)
    ensures Summary(tests).failedByPath.Keys == FailedFolders(tests)
    ensures Summary(tests).failedGroups == |FailedFolders(tests)| <= FailedCount(tests)
    ensures Summary(tests).failedGroups == 0 <==> forall t :: t in tests ==> t.passed
    ensures Summary(tests).total == |tests|
  {
    GroupIsBucket(tests, false);
    forall p ensures p in Group(tests, false) <==> p in FailedFolders(tests) {
      BucketNonEmpty(tests, p, false);
    }
    FailedFoldersAtMostFailedTests(tests);
    forall t | t in tests && !t.passed ensures t.relativeParentFolder in FailedFolders(tests) {
    }
  }

  /** Two failed tests in one folder are reported as one failure. */
  lemma TwoFailuresInOneFolderCountOnce(folder: Path, a: string, b: string, e: string)
    ensures var tests := [TestCaseFileInfo(folder, a, false, Some(e)), TestCaseFileInfo(folder, b, false, Some(e))];
            FailedCount(tests) == 2 && Summary(tests).failedGroups == 1
  {
    var t1, t2 := TestCaseFileInfo(folder, a, false, Some(e)), TestCaseFileInfo(folder, b, false, Some(e));
    var empty: map<Path, seq<string>> := map[];
    assert [t1][..0] == [];
    assert Group([t1][..0], false) == empty;
    assert Group([t1], false) == Group([t1][..0], false)[folder := Lookup(Group([t1][..0], false), folder) + [a]];
    assert Lookup(empty, folder) + [a] == [a];
    assert Group([t1], false) == empty[folder := [a]];
    assert [t1, t2][..1] == [t1];
    assert Group([t1, t2], false) == Group([t1], false)[folder := Lookup(Group([t1], false), folder) + [b]];
    assert Group([t1, t2], false).Keys == {folder};
    assert [t1, t2][1..] == [t2];
    assert [t2][1..] == [];
    assert FailedCount([t2]) == 1;
    assert Lookup(Group([t1], false), folder) + [b] == [a, b];
    assert Group([t1, t2], false) == map[folder := [a, b]];
  }


}
