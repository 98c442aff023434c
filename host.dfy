/**
 * Vocabulary shared by the whole harness model: how a Go call ends, file-system
 * paths, the file system itself as a finite map, and the string joins the
 * harness uses (strings.Join and filepath.Join).
 */
module Host {

  datatype Option<+T> = None | Some(value: T)

  /** The three ways a Go call can end: it returns a value, it returns a non-nil
      error (its text is kept), or it panics. */
  datatype Go<+T> = Returned(value: T) | Failed(error: string) | Panicked(reason: string)

  /** Forgets the value of a Go outcome, keeping how it ended. */
  function Status<T>(g: Go<T>): (r: Go<()>)
    ensures r.Returned? <==> g.Returned?
    ensures g.Failed? ==> r == Failed(g.error)
    ensures g.Panicked? ==> r == Panicked(g.reason)
  {
    match g
    case Returned(_) => Returned(())
    case Failed(e) => Failed(e)
    case Panicked(p) => Panicked(p)
  }

  /** Hands an error or a panic on to the caller, as `if err != nil { return ..., err }` does. */
  function Propagate<T, U>(g: Go<T>): (r: Go<U>)
    requires !g.Returned?
    ensures g.Failed? ==> r == Failed(g.error)
    ensures g.Panicked? ==> r == Panicked(g.reason)
  {
    match g
    case Failed(e) => Failed(e)
    case Panicked(p) => Panicked(p)
  }

  /** A clean path as its sequence of segments (no empty, "." or ".." segment);
      the empty sequence is ".". Joining clean paths is concatenation. */
  type Path = seq<string>

  /** What reading one path yields: nothing there, an I/O error, or the text. */
  datatype FileState = Missing | ReadErr(message: string) | Content(text: string)

  /** The file system, as far as the harness reads it; a path that is not a key is Missing. */
  type FileSystem = map<Path, FileState>

  /** strings.Join: the parts with one separator between neighbours. */
  function Join(parts: seq<string>, sep: char): string
  {
    if |parts| == 0 then ""
    else if |parts| == 1 then parts[0]
    else parts[0] + [sep] + Join(parts[1..], sep)
  }

  /** strings.Split with a one-character separator: the inverse of Join. */
  function Split(s: string, sep: char): (r: seq<string>)
    ensures |r| >= 1
  {
    if |s| == 0 then [""]
    else
      var rest := Split(s[1..], sep);
      if s[0] == sep then [""] + rest else [[s[0]] + rest[0]] + rest[1..]
  }

  lemma {:induction false} SplitWord(w: string, sep: char)
    requires sep !in w
    ensures Split(w, sep) == [w]
  {
    if |w| > 0 {
      SplitWord(w[1..], sep);
      assert [w[0]] + w[1..] == w;
    }
  }

  lemma {:induction false} SplitAfterWord(w: string, t: string, sep: char)
    requires sep !in w
    ensures Split(w + [sep] + t, sep) == [w] + Split(t, sep)
  {
    if |w| == 0 {
      assert w + [sep] + t == [sep] + t;
      assert ([sep] + t)[1..] == t;
    } else {
      SplitAfterWord(w[1..], t, sep);
      assert (w + [sep] + t)[1..] == w[1..] + [sep] + t;
      assert [w[0]] + w[1..] == w;
    }
  }

  /** Splitting a join of separator-free parts gives the parts back. */
  lemma {:induction false} SplitJoin(parts: seq<string>, sep: char)
    requires |parts| > 0
    requires forall k :: 0 <= k < |parts| ==> sep !in parts[k]
    ensures Split(Join(parts, sep), sep) == parts
  {
    if |parts| == 1 {
      SplitWord(parts[0], sep);
    } else {
      SplitAfterWord(parts[0], Join(parts[1..], sep), sep);
      SplitJoin(parts[1..], sep);
      assert [parts[0]] + parts[1..] == parts;
    }
  }

  /** The path as the harness prints it in messages. */
  function PathString(p: Path): string
  {
    if p == [] then "." else Join(p, '/')
  }

  /** filepath.Base: the last segment. */
  function Base(p: Path): string
  {
    if p == [] then "." else p[|p| - 1]
  }

  /** filepath.Dir: everything but the last segment ("." when nothing is left). */
  function Dir(p: Path): (r: Path)
    ensures p != [] ==> r + [Base(p)] == p
  {
    if p == [] then [] else p[..|p| - 1]
  }

  predicate EndsWith(s: string, suffix: string)
  {
    |s| >= |suffix| && s[|s| - |suffix|..] == suffix
  }

  /** ioutil.ReadFile: the text, or the error Go reports. */
  function ReadFile(fs: FileSystem, p: Path): (r: Go<string>)
    ensures !r.Panicked?
    ensures r.Returned? <==> p in fs && fs[p].Content?
    ensures r.Returned? ==> fs[p] == Content(r.value)
  {
    if p !in fs || fs[p].Missing? then Failed("open " + PathString(p) + ": no such file or directory")
    else if fs[p].ReadErr? then Failed(fs[p].message)
    else Returned(fs[p].text)
  }
}
