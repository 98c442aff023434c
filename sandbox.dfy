/**
 * The embedded JavaScript interpreter as the harness sees it: the values a script
 * can hold, the global scope of one interpreter instance, and script execution
 * as an oracle. The interpreter itself is not modelled; only the host side of the
 * boundary is.
 */
module Sandbox {
  import opened Host

  /** A JavaScript value as it sits in an interpreter's scope. */
  datatype JsVal =
    | Undefined
    | Null
    | Bool(b: bool)
    | Num(n: real)
    | Str(s: string)
    | Obj(props: map<string, JsVal>)
    | Arr(elems: seq<JsVal>)
      /** A Go function bound with vm.Set, with the folders its closure captured. */
    | Native(name: string, captured: seq<Path>)
      /** A function defined by script code. */
    | Function(name: string)

  /** The global scope of one interpreter instance. */
  type Globals = map<string, JsVal>

  /** Value.Export: the Go form of a value. Undefined and null both become nil
      (here `Null`); an object becomes a map of its properties without those whose
      value is undefined; a function object, native or scripted, is exported like
      any other object, as the map of its (here: no) enumerable properties; the
      elements of an array are exported one by one. */
  function Export(v: JsVal): (r: JsVal)
    ensures r.Null? <==> v.Undefined? || v.Null?
    ensures r.Obj? <==> v.Obj? || v.Native? || v.Function?
    ensures r.Str? <==> v.Str?
    ensures v.Str? || v.Num? || v.Bool? ==> r == v
    ensures v.Obj? ==> r.props.Keys == set k | k in v.props && !v.props[k].Undefined?
    ensures v.Obj? ==> forall k :: k in r.props ==> r.props[k] == Export(v.props[k])
    ensures !r.Undefined? && !r.Native? && !r.Function?
  {
    match v
    case Undefined => Null
    case Obj(props) => Obj(map k | k in props && !props[k].Undefined? :: Export(props[k]))
    case Arr(elems) => Arr(seq(|elems|, i requires 0 <= i < |elems| => Export(elems[i])))
    case Native(_, _) => Obj(map[])
    case Function(_) => Obj(map[])
    case _ => v
  }

  /** How running a script ends: it completes with a new global scope; it throws
      (a syntax error, a runtime error, or an error a native binding raised into the
      script), and vm.Run returns that error while the scope keeps whatever the
      script assigned before it threw; or a native binding hit a Go runtime
      panic, which the interpreter does not turn into a script error and which
      therefore unwinds through the caller of vm.Run. */
  datatype ScriptOutcome = Completed(globals: Globals) | Threw(message: string, globals: Globals) | Crashed(reason: string)

  /** Parsing and executing a script's source over a global scope. */
  type Interpreter = (Globals, string) -> ScriptOutcome

  /** What happened to an interpreter instance, in order: a global was bound by
      the host, or a script ran and saw the given global scope. */
  datatype Event = Bound(name: string) | Ran(source: string, seen: Globals)

  /** One interpreter instance (an otto.Otto). */
  class VM {
    var globals: Globals
    ghost var history: seq<Event>

    /** otto.New: an empty global scope. */
    constructor ()
      ensures globals == map[] && history == []
    {
      globals := map[];
      history := [];
    }

    /** vm.Set: binds a global, replacing any earlier value. */
    method Set(name: string, value: JsVal)
      modifies this
      ensures globals == old(globals)[name := value]
      ensures history == old(history) + [Bound(name)]
    {
      globals := globals[name := value];
      history := history + [Bound(name)];
    }

    /** vm.Run: executes a script; a script that completes or throws leaves its
        global scope behind. */
    method Run(source: string, interp: Interpreter) returns (outcome: ScriptOutcome)
      modifies this
      ensures outcome == interp(old(globals), source)
      ensures globals == (if outcome.Crashed? then old(globals) else outcome.globals)
      ensures history == old(history) + [Ran(source, old(globals))]
    {
      outcome := interp(globals, source);
      history := history + [Ran(source, globals)];
      if !outcome.Crashed? {
        globals := outcome.globals;
      }
    }
  }
}
