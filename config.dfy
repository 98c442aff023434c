/**
 * The settings resolver: loading a script into an interpreter instance, and
 * reading the `Settings` global that the global script declares into a base URL
 * and a header map. Every getter reads the current global scope afresh.
 */
module Config {
  import opened Host
  import opened Sandbox

  const SettingsName := "Settings"
  const HeadersKey := "headers"
  const BaseUrlKey := "baseUrl"

  /** The panics of the two type assertions on exported settings values. */
  const SettingsNotObject := "interface conversion: Settings is not a map[string]interface {}"
  const BaseUrlNotString := "interface conversion: baseUrl is not a string"

  const HeadersNotMap := "headers is not a map[string]interface{}"

  function HeaderNotString(key: string): string
  {
    "header value for key " + key + " is not a string"
  }

  function ReadError(filePath: Path, e: string): string
  {
    "Error reading " + PathString(filePath) + " file: " + e
  }

  function ExecuteError(filePath: Path, e: string): string
  {
    "Error executing " + PathString(filePath) + " script: " + e
  }

  /** What LoadScript does to a global scope: read the file, then run it. */
  function LoadScriptSpec(g: Globals, fs: FileSystem, filePath: Path, interp: Interpreter): Go<Globals>
  {
    var read := ReadFile(fs, filePath);
    if read.Failed? then Failed(ReadError(filePath, read.error))
    else
      match interp(g, read.value)
      case Completed(after) => Returned(after)
      case Threw(m, _) => Failed(ExecuteError(filePath, m))
      case Crashed(p) => Panicked(p)
  }

  /** The global scope LoadScript leaves behind: unchanged when the file cannot
      be read or the run panics, otherwise whatever the script left, including
      the assignments a throwing script made before it threw. */
  function ScopeAfterLoad(g: Globals, fs: FileSystem, filePath: Path, interp: Interpreter): (r: Globals)
    ensures LoadScriptSpec(g, fs, filePath, interp).Returned? ==> r == LoadScriptSpec(g, fs, filePath, interp).value
    ensures ReadFile(fs, filePath).Failed? ==> r == g
  {
    var read := ReadFile(fs, filePath);
    if read.Failed? then g
    else
      var outcome := interp(g, read.value);
      if outcome.Crashed? then g else outcome.globals
  }

  /** A file that cannot be read is reported as a read error and never reaches
      the interpreter, whatever the interpreter would have done with it. */
  lemma ReadFailureRunsNothing(g: Globals, fs: FileSystem, filePath: Path, i1: Interpreter, i2: Interpreter)
    requires ReadFile(fs, filePath).Failed?
    ensures LoadScriptSpec(g, fs, filePath, i1) == LoadScriptSpec(g, fs, filePath, i2)
    ensures LoadScriptSpec(g, fs, filePath, i1) == Failed(ReadError(filePath, ReadFile(fs, filePath).error))
  {
  }

  /** The two errors of LoadScript are told apart by their prefix: a failure
      starts with "Error reading " exactly when the file could not be read, and
      with "Error executing " exactly when the script threw. */
  lemma LoadScriptErrorNamesStage(g: Globals, fs: FileSystem, filePath: Path, interp: Interpreter)
    requires LoadScriptSpec(g, fs, filePath, interp).Failed?
    ensures var e := LoadScriptSpec(g, fs, filePath, interp).error;
            && (ReadFile(fs, filePath).Failed? <==> |e| >= 14 && e[..14] == "Error reading ")
            && (ReadFile(fs, filePath).Returned? <==> |e| >= 16 && e[..16] == "Error executing ")
  {
    var e := LoadScriptSpec(g, fs, filePath, interp).error;
    var p := PathString(filePath);
    if ReadFile(fs, filePath).Failed? {
      assert e == "Error reading " + (p + " file: " + ReadFile(fs, filePath).error);
      assert e[6] == 'r';
    } else {
      assert e == "Error executing " + (p + " script: " + interp(g, ReadFile(fs, filePath).value).message);
      assert e[6] == 'e';
    }
  }

  /** LoadScript: reads the file at filePath and runs it in vm. */
  method LoadScript(vm: VM, fs: FileSystem, filePath: Path, interp: Interpreter) returns (r: Go<()>)
    modifies vm
    ensures r == Status(LoadScriptSpec(old(vm.globals), fs, filePath, interp))
    ensures vm.globals == ScopeAfterLoad(old(vm.globals), fs, filePath, interp)
    ensures ReadFile(fs, filePath).Failed? ==> vm.history == old(vm.history)
    ensures ReadFile(fs, filePath).Returned? ==>
              vm.history == old(vm.history) + [Ran(ReadFile(fs, filePath).value, old(vm.globals))]
  {
    var script := ReadFile(fs, filePath);
    if script.Failed? {
      return Failed(ReadError(filePath, script.error));
    }
    var outcome := vm.Run(script.value, interp);
    match outcome
    case Completed(_) =>
      r := Returned(());
    case Threw(m, _) =>
      r := Failed(ExecuteError(filePath, m));
    case Crashed(p) =>
      r := Panicked(p);
  }

  /** GetSettings: the exported value of the Settings global. Reading a global and
      exporting it cannot fail here, so no error is ever returned. */
  function GetSettings(g: Globals): (r: Go<Option<map<string, JsVal>>>)
    ensures !r.Failed?
    ensures r == Returned(None) <==> SettingsName !in g || g[SettingsName].Undefined? || g[SettingsName].Null?
    ensures r.Panicked? <==> SettingsName in g && !g[SettingsName].Undefined? && !g[SettingsName].Null?
                             && !g[SettingsName].Obj? && !g[SettingsName].Native? && !g[SettingsName].Function?
    ensures r.Returned? && r.value.Some? ==> SettingsName in g && Export(g[SettingsName]) == Obj(r.value.value)
  {
    if SettingsName !in g then Returned(None)
    else
      match Export(g[SettingsName])
      case Null => Returned(None)
      case Obj(m) => Returned(Some(m))
      case _ => Panicked(SettingsNotObject)
  }

  /** Settings is an object with a defined value at the given key. */
  predicate SettingsHas(g: Globals, key: string)
  {
    SettingsName in g && g[SettingsName].Obj? && key in g[SettingsName].props && !g[SettingsName].props[key].Undefined?
  }

  /** GetBaseUrl: Settings.baseUrl, or "" when there is none. */
  function GetBaseUrl(g: Globals): (r: Go<string>)
    ensures !r.Failed?
    ensures SettingsHas(g, BaseUrlKey) ==>
              && (r.Returned? <==> g[SettingsName].props[BaseUrlKey].Str?)
              && (r.Returned? ==> g[SettingsName].props[BaseUrlKey] == Str(r.value))
    ensures !SettingsHas(g, BaseUrlKey) ==> (r == Returned("") <==> !GetSettings(g).Panicked?)
    ensures !SettingsHas(g, BaseUrlKey) ==> (r.Panicked? <==> GetSettings(g).Panicked?)
  {
    match GetSettings(g)
    case Failed(e) => Failed(e)
    case Panicked(p) => Panicked(p)
    case Returned(settings) =>
      if settings.None? || BaseUrlKey !in settings.value then Returned("")
      else if settings.value[BaseUrlKey].Str? then Returned(settings.value[BaseUrlKey].s)
      else Panicked(BaseUrlNotString)
  }

  /** A script that stores a new base URL in Settings is seen by the very next call. */
  lemma BaseUrlReread(g: Globals, m: map<string, JsVal>, url: string)
    ensures GetBaseUrl(g[SettingsName := Obj(m[BaseUrlKey := Str(url)])]) == Returned(url)
  {
  }

  /** The header values as strings, when all of them are strings. */
  function HeaderStrings(headers: map<string, JsVal>): (r: map<string, string>)
    requires forall k :: k in headers ==> headers[k].Str?
    ensures r.Keys == headers.Keys
  {
    map k | k in headers :: headers[k].s
  }

  /** Every outcome GetHeaders may have on a global scope. Go visits a map in an
      unspecified order, so when several header values are not strings the error
      may name any one of them; every other outcome is determined. */
  ghost predicate IsHeadersResult(g: Globals, r: Go<map<string, string>>)
  {
    match GetSettings(g)
    case Failed(e) => r == Failed(e)
    case Panicked(p) => r == Panicked(p)
    case Returned(settings) =>
      if settings.None? || HeadersKey !in settings.value then r == Returned(map[])
      else
        match settings.value[HeadersKey]
        case Obj(headers) =>
          if exists k :: k in headers && !headers[k].Str? then
            exists k :: k in headers && !headers[k].Str? && r == Failed(HeaderNotString(k))
          else r == Returned(HeaderStrings(headers))
        case _ => r == Failed(HeadersNotMap)
  }

  /** GetHeaders: Settings.headers as a string map. */
  method GetHeaders(vm: VM) returns (r: Go<map<string, string>>)
    ensures IsHeadersResult(vm.globals, r)
  {
    var settings := GetSettings(vm.globals);
    if !settings.Returned? {
      return Propagate(settings);
    }
    if settings.value.None? || HeadersKey !in settings.value.value {
      return Returned(map[]);
    }
    var headers := settings.value.value[HeadersKey];
    if !headers.Obj? {
      return Failed(HeadersNotMap);
    }
    var headersMap := headers.props;
    var headersStringMap: map<string, string> := map[];
    var remaining := headersMap.Keys;
    while remaining != {}
      invariant remaining <= headersMap.Keys
      invariant forall k :: k in headersMap && k !in remaining ==> headersMap[k].Str?
      invariant headersStringMap == map k | k in headersMap && k !in remaining && headersMap[k].Str? :: headersMap[k].s
      decreases remaining
    {
      var key :| key in remaining;
      var value := headersMap[key];
      if !value.Str? {
        return Failed(HeaderNotString(key));
      }
      headersStringMap := headersStringMap[key := value.s];
      remaining := remaining - {key};
    }
    assert forall k :: k in headersMap ==> headersMap[k].Str?;
    assert headersStringMap == HeaderStrings(headersMap);
    return Returned(headersStringMap);
  }

  /** Only the key named in an error can differ between two outcomes: a successful
      outcome is the only possible one. */
  lemma HeadersDeterminedOnSuccess(g: Globals, r1: Go<map<string, string>>, r2: Go<map<string, string>>)
    requires IsHeadersResult(g, r1) && IsHeadersResult(g, r2)
    requires r1.Returned?
    ensures r2 == r1
  {
  }

  /** A successful GetHeaders gives back exactly the exported headers object of
      Settings: for a script object, its defined properties, each with its
      original string. */
  lemma HeadersRoundTrip(g: Globals, h: map<string, string>)
    requires IsHeadersResult(g, Returned(h))
    ensures SettingsHas(g, HeadersKey) ==>
              Export(g[SettingsName].props[HeadersKey]) == Obj(map k | k in h :: Str(h[k]))
    ensures SettingsHas(g, HeadersKey) && g[SettingsName].props[HeadersKey].Obj? ==>
              var raw := g[SettingsName].props[HeadersKey].props;
              && h.Keys == (set k | k in raw && !raw[k].Undefined?)
              && forall k :: k in h ==> raw[k] == Str(h[k])
    ensures !SettingsHas(g, HeadersKey) ==> h == map[]
  {
    if SettingsHas(g, HeadersKey) {
      var headers := Export(g[SettingsName].props[HeadersKey]).props;
      assert h == HeaderStrings(headers);
      assert (map k | k in h :: Str(h[k])) == headers;
    }
  }

  /** A failed GetHeaders names its cause: headers that are neither an object nor
      a function, or a key of the headers object whose value is defined but not
      a string. */
  lemma HeadersErrorNamesCause(g: Globals, e: string)
    requires IsHeadersResult(g, Failed(e))
    ensures SettingsHas(g, HeadersKey)
    ensures var headers := g[SettingsName].props[HeadersKey];
            || (!headers.Obj? && !headers.Native? && !headers.Function? && e == HeadersNotMap)
            || (headers.Obj? && exists k :: k in headers.props && !headers.props[k].Undefined?
                                            && !headers.props[k].Str? && e == HeaderNotString(k))
  {
    var headers := g[SettingsName].props[HeadersKey];
    if headers.Obj? && e != HeadersNotMap {
      var k :| k in Export(headers).props && !Export(headers).props[k].Str? && e == HeaderNotString(k);
      assert k in headers.props && !headers.props[k].Undefined? && !headers.props[k].Str?;
    }
  }

  /** A property of Settings whose value is undefined is exported as no property
      at all: every getter behaves as if the key were absent. */
  lemma UndefinedSettingIsAbsent(g: Globals, m: map<string, JsVal>, key: string)
    requires key in m && m[key].Undefined?
    ensures var g1, g2 := g[SettingsName := Obj(m)], g[SettingsName := Obj(m - {key})];
            && GetSettings(g1) == GetSettings(g2)
            && GetBaseUrl(g1) == GetBaseUrl(g2)
            && forall r :: IsHeadersResult(g1, r) <==> IsHeadersResult(g2, r)
  {
    assert Export(Obj(m)) == Export(Obj(m - {key}));
  }

  /** Settings written with undefined values, or bound to a function, read as
      if the undefined keys were not there. */
  lemma UndefinedSettingsExamples(g: Globals, f: string)
    ensures var token := g[SettingsName := Obj(map[HeadersKey := Obj(map["Authorization" := Undefined])])];
            IsHeadersResult(token, Returned(map[]))
    ensures IsHeadersResult(g[SettingsName := Obj(map[HeadersKey := Undefined])], Returned(map[]))
    ensures GetBaseUrl(g[SettingsName := Obj(map[BaseUrlKey := Undefined])]) == Returned("")
    ensures GetBaseUrl(g[SettingsName := Function(f)]) == Returned("")
    ensures IsHeadersResult(g[SettingsName := Function(f)], Returned(map[]))
  {
    var empty: map<string, JsVal> := map[];
    assert Export(Obj(map["Authorization" := Undefined])) == Obj(empty);
    assert Export(Obj(map[HeadersKey := Obj(map["Authorization" := Undefined])])) == Obj(map[HeadersKey := Obj(empty)]);
    assert Export(Obj(map[HeadersKey := Undefined])) == Obj(empty);
    assert Export(Obj(map[BaseUrlKey := Undefined])) == Obj(empty);
    assert HeaderStrings(empty) == map[];
  }

  /** Likewise a header whose value is undefined is left out of the headers
      rather than reported as a value that is not a string. */
  lemma UndefinedHeaderIsAbsent(g: Globals, m: map<string, JsVal>, headers: map<string, JsVal>, key: string)
    requires key in headers && headers[key].Undefined?
    ensures var g1 := g[SettingsName := Obj(m[HeadersKey := Obj(headers)])];
            var g2 := g[SettingsName := Obj(m[HeadersKey := Obj(headers - {key})])];
            forall r :: IsHeadersResult(g1, r) <==> IsHeadersResult(g2, r)
  {
    assert Export(Obj(headers)) == Export(Obj(headers - {key}));
    assert Export(Obj(m[HeadersKey := Obj(headers)])) == Export(Obj(m[HeadersKey := Obj(headers - {key})]));
  }
}
