/** Shared vocabulary: optional values, the exceptions Python code raises,
    string helpers with Python's meaning, and a left fold that stops at the
    first exception, the shape of every `for` loop that appends results. */
module Base {

  datatype Option<+T> = None | Some(value: T)

  /** The exception classes the modelled code can raise. The message is the
      text `str(e)` gives. */
  datatype Error =
    | TypeError(msg: string)
    | AttributeError(msg: string)
    | ValueError(msg: string)
    | FileNotFound(msg: string)
    | DecodeError(msg: string)
    | WriteError(msg: string)
    | InvalidRequest(msg: string)   // SQLAlchemy's `InvalidRequestError`
    | OverflowError(msg: string)
  {
    function Message(): string {
      match this
      case TypeError(m) => m
      case AttributeError(m) => m
      case ValueError(m) => m
      case FileNotFound(m) => m
      case DecodeError(m) => m
      case WriteError(m) => m
      case InvalidRequest(m) => m
      case OverflowError(m) => m
    }
  }

  datatype Result<+T> = Ok(value: T) | Err(error: Error) {
    predicate IsFailure() { Err? }

    function PropagateFailure<U>(): Result<U>
      requires Err?
    {
      Err(error)
    }

    function Extract(): T
      requires Ok?
    {
      value
    }
  }

  // ---------------------------------------------------------------------
  // Strings
  // ---------------------------------------------------------------------

  function LowerChar(c: char): char {
    if 'A' <= c <= 'Z' then (c as int + 32) as char else c
  }

  /** `str.lower()` restricted to ASCII letters. */
  function Lower(s: string): (r: string)
    ensures |r| == |s|
    ensures forall i :: 0 <= i < |s| ==> r[i] == LowerChar(s[i])
  {
    if s == [] then [] else [LowerChar(s[0])] + Lower(s[1..])
  }

  /** Lower-casing twice is lower-casing once. */
  lemma LowerIdempotent(s: string)
    ensures Lower(Lower(s)) == Lower(s)
  {
    var l := Lower(s);
    assert forall i :: 0 <= i < |l| ==> LowerChar(l[i]) == l[i];
  }

  /** A string without capital letters is its own lower case. */
  lemma LowerOfLowerCase(s: string)
    requires forall i :: 0 <= i < |s| ==> !('A' <= s[i] <= 'Z')
    ensures Lower(s) == s
  {
  }

  predicate StartsWith(s: string, prefix: string) {
    |prefix| <= |s| && s[..|prefix|] == prefix
  }

  predicate EndsWith(s: string, suffix: string) {
    |suffix| <= |s| && s[|s| - |suffix|..] == suffix
  }

  /** Python's `needle in haystack` on two strings. */
  predicate IsSubstring(needle: string, haystack: string) {
    exists i | 0 <= i <= |haystack| - |needle| :: OccursAt(needle, haystack, i)
  }

  predicate OccursAt(needle: string, haystack: string, i: int) {
    0 <= i <= |haystack| - |needle| && haystack[i..i + |needle|] == needle
  }

  lemma SubstringOfConcat(a: string, needle: string, b: string)
    ensures IsSubstring(needle, a + needle + b)
  {
    var h := a + needle + b;
    assert h[|a|..|a| + |needle|] == needle;
    assert OccursAt(needle, h, |a|);
  }

  /** The index just past the last occurrence of `c` in `s`, 0 when absent. */
  function AfterLast(s: string, c: char): (k: nat)
    ensures k <= |s|
    ensures k > 0 ==> s[k - 1] == c
    ensures forall j :: k <= j < |s| ==> s[j] != c
  {
    if s == [] then 0
    else if s[|s| - 1] == c then |s|
    else AfterLast(s[..|s| - 1], c)
  }

  /** The three facts of AfterLast's contract determine it. */
  lemma {:induction false} AfterLastIs(s: string, c: char, k: nat)
    requires 0 < k <= |s| && s[k - 1] == c
    requires forall j | k <= j < |s| :: s[j] != c
    ensures AfterLast(s, c) == k
    decreases |s|
  {
    if k < |s| {
      var front := s[..|s| - 1];
      assert front[k - 1] == c;
      AfterLastIs(front, c, k);
    }
  }

  /** `os.path.basename` with `/` as separator. */
  function Basename(path: string): (b: string)
    ensures '/' !in b
    ensures EndsWith(path, b)
  {
    var k := AfterLast(path, '/');
    assert forall j :: 0 <= j < |path| - k ==> path[k..][j] == path[k + j];
    path[k..]
  }

  /** The extension `os.path.splitext` reports: from the last `.` of the
      base name on, provided some character before that dot is not a dot;
      otherwise empty. */
  function Extension(path: string): (ext: string)
    ensures ext != [] ==> ext[0] == '.' && EndsWith(path, ext) && '/' !in ext
  {
    var b := Basename(path);
    var d := AfterLast(b, '.');
    if d > 0 && exists j | 0 <= j < d - 1 :: b[j] != '.' then
      DotSuffix(path, b, d);
      b[d - 1..]
    else []
  }

  /** A suffix of the base name, from a dot on, is a slash-free suffix of
      the path. */
  lemma DotSuffix(path: string, b: string, d: nat)
    requires b == Basename(path) && 0 < d <= |b| && b[d - 1] == '.'
    ensures var e := b[d - 1..]; e[0] == '.' && EndsWith(path, e) && '/' !in e
  {
    var e := b[d - 1..];
    assert forall i | 0 <= i < |e| :: e[i] == b[d - 1 + i];
    assert b[|b| - |e|..] == e;
    EndsWithTrans(path, b, e);
  }

  lemma EndsWithTrans(a: string, b: string, c: string)
    requires EndsWith(a, b) && EndsWith(b, c)
    ensures EndsWith(a, c)
  {
    assert a[|a| - |c|..] == b[|b| - |c|..];
  }

  /** The base name of `dir/name` is `name`, when the name has no slash. */
  lemma BasenameOfName(dir: string, name: string)
    requires '/' !in name
    ensures Basename(dir + "/" + name) == name
  {
    var path := dir + "/" + name;
    assert path[|dir|] == '/';
    assert forall j | |dir| + 1 <= j < |path| :: path[j] == name[j - |dir| - 1];
    AfterLastIs(path, '/', |dir| + 1);
    assert path[|dir| + 1..] == name;
  }

  /** The extension of `dir/stem.ext` is `.ext`, when the stem has neither
      a dot nor a slash and the rest of the extension no dot. */
  lemma ExtensionOfName(dir: string, stem: string, ext: string)
    requires stem != [] && '.' !in stem && '/' !in stem
    requires ext != [] && ext[0] == '.' && '.' !in ext[1..] && '/' !in ext
    ensures Extension(dir + "/" + stem + ext) == ext
  {
    var b := stem + ext;
    var path := dir + "/" + stem + ext;
    assert path == dir + "/" + b;
    BasenameOfName(dir, b);
    assert b[|stem|] == '.';
    assert forall j | |stem| + 1 <= j < |b| :: b[j] == ext[1..][j - |stem| - 1];
    AfterLastIs(b, '.', |stem| + 1);
    assert b[0] == stem[0];
    ExtensionAfterDot(path, b, |stem| + 1);
    assert b[|stem|..] == ext;
  }

  /** A base name whose last dot follows a non-dot first character has
      its extension from that dot on. */
  lemma ExtensionAfterDot(path: string, b: string, k: nat)
    requires Basename(path) == b && 1 < k <= |b| && AfterLast(b, '.') == k && b[0] != '.'
    ensures Extension(path) == b[k - 1..]
  {
    assert 0 < k - 1;
  }

  /** ".json" has no capital letters. */
  lemma LowerJson()
    ensures Lower(".json") == ".json"
  {
    LowerOfLowerCase(".json");
  }

  /** `os.path.join(dir, name)` for a relative `name`. */
  function Join(dir: string, name: string): (p: string)
    ensures EndsWith(p, name)
  {
    var p := if dir == [] || dir[|dir| - 1] == '/' then dir + name else dir + "/" + name;
    assert p[|p| - |name|..] == name;
    p
  }

  /** `s.split(sep)` for a one-character separator: there is always at
      least one part, and no part contains `sep`. */
  function Split(s: string, sep: char): (parts: seq<string>)
    ensures |parts| >= 1
    ensures forall p :: p in parts ==> sep !in p
    decreases |s|
  {
    var k := AfterLast(s, sep);
    if k == 0 then [s] else Split(s[..k - 1], sep) + [s[k..]]
  }

  // ---------------------------------------------------------------------
  // First-exception fold
  // ---------------------------------------------------------------------

  /** Runs `step` over `xs` from the left, threading the state; the first
      step that raises aborts the whole fold with that exception. */
  function Fold<A, S>(xs: seq<A>, s0: S, step: (S, A) -> Result<S>): Result<S>
    decreases |xs|
  {
    if xs == [] then Ok(s0)
    else
      match Fold(xs[..|xs| - 1], s0, step)
      case Err(e) => Err(e)
      case Ok(s) => step(s, xs[|xs| - 1])
  }

  /** One more element: the loop step of every method that walks a list. */
  lemma FoldStep<A, S>(xs: seq<A>, i: nat, s0: S, step: (S, A) -> Result<S>)
    requires i < |xs|
    ensures Fold(xs[..i + 1], s0, step) ==
            match Fold(xs[..i], s0, step)
            case Err(e) => Err(e)
            case Ok(s) => step(s, xs[i])
  {
    assert xs[..i + 1][..i] == xs[..i];
  }

  /** A fold over one element is one step. */
  lemma FoldSingle<A, S>(x: A, s0: S, step: (S, A) -> Result<S>)
    ensures Fold([x], s0, step) == step(s0, x)
  {
    assert [x][..0] == [];
  }

  /** Once a prefix has raised, the whole loop raises the same exception. */
  lemma {:induction false} FoldErrPrefix<A, S>(xs: seq<A>, i: nat, s0: S, step: (S, A) -> Result<S>)
    requires i <= |xs|
    requires Fold(xs[..i], s0, step).Err?
    ensures Fold(xs, s0, step) == Fold(xs[..i], s0, step)
    decreases |xs| - i
  {
    if i == |xs| {
      assert xs[..i] == xs;
    } else {
      FoldStep(xs, i, s0, step);
      FoldErrPrefix(xs, i + 1, s0, step);
    }
  }

  /** Walking `xs + ys` is walking `xs`, then `ys` from where it stopped. */
  lemma {:induction false} FoldAppend<A, S>(xs: seq<A>, ys: seq<A>, s0: S, step: (S, A) -> Result<S>)
    ensures Fold(xs + ys, s0, step) ==
            match Fold(xs, s0, step)
            case Err(e) => Err(e)
            case Ok(s) => Fold(ys, s, step)
    decreases |ys|
  {
    if ys == [] {
      assert xs + ys == xs;
    } else {
      var front := ys[..|ys| - 1];
      assert (xs + ys)[..|xs + ys| - 1] == xs + front;
      assert (xs + ys)[|xs + ys| - 1] == ys[|ys| - 1];
      FoldAppend(xs, front, s0, step);
    }
  }

  /** The step of a loop that converts each element and appends it. */
  function AppendStep<A, B>(f: A -> Result<B>, acc: seq<B>, x: A): Result<seq<B>> {
    match f(x)
    case Err(e) => Err(e)
    case Ok(y) => Ok(acc + [y])
  }

  function AppendStepFn<A, B>(f: A -> Result<B>): (seq<B>, A) -> Result<seq<B>> {
    (acc, x) => AppendStep(f, acc, x)
  }

  /** A convert-and-append loop yields one converted element per input, in
      order, after what was there; it raises exactly when some conversion
      raises, and then with the first such exception. */
  lemma {:induction false} AppendAll<A, B>(xs: seq<A>, acc: seq<B>, f: A -> Result<B>)
    ensures Fold(xs, acc, AppendStepFn(f)).Ok? <==> forall k | 0 <= k < |xs| :: f(xs[k]).Ok?
    ensures Fold(xs, acc, AppendStepFn(f)).Ok? ==>
              var r := Fold(xs, acc, AppendStepFn(f)).value;
              |r| == |acc| + |xs| && r[..|acc|] == acc &&
              forall k | 0 <= k < |xs| :: r[|acc| + k] == f(xs[k]).value
    ensures Fold(xs, acc, AppendStepFn(f)).Err? ==>
              exists k | 0 <= k < |xs| :: f(xs[k]) == Err(Fold(xs, acc, AppendStepFn(f)).error) &&
                                         forall j | 0 <= j < k :: f(xs[j]).Ok?
    decreases |xs|
  {
    if xs != [] {
      var n := |xs| - 1;
      var front := xs[..n];
      AppendAll(front, acc, f);
      assert forall k | 0 <= k < n :: front[k] == xs[k];
      if Fold(front, acc, AppendStepFn(f)).Ok? {
        var r := Fold(front, acc, AppendStepFn(f)).value;
        if f(xs[n]).Ok? {
          var r' := r + [f(xs[n]).value];
          assert Fold(xs, acc, AppendStepFn(f)) == Ok(r');
          assert r'[..|acc|] == r[..|acc|];
        }
      }
    }
  }
}
