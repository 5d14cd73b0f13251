/** The synchronous "category" façade (`logger` in src/cpplog.h and
    src/cpplog.cpp), for one thread. A selector such as `logger::warn(file,
    line)` stamps a source location on one of four categories and returns a
    temporary wrapper; each `<<` on the wrapper appends a value's text to the
    category's buffer when the global threshold enables the category; the
    wrapper's destructor releases the line, handing it to the global backend.
    Backend calls are recorded, in order, in `calls`. */
module CppLog {
  import opened Wrappers
  import opened Strings

  const VERBOSE_LEVEL: nat := 0
  const DEBUG_LEVEL: nat := 1
  const WARN_LEVEL: nat := 2
  const ERROR_LEVEL: nat := 3

  /** A category is enabled when the threshold does not exceed its level. */
  predicate Enabled(threshold: nat, level: nat)
  {
    threshold <= level
  }

  /** The level constants are strictly ordered; at threshold WARN the verbose
      and debug categories are disabled and the others enabled; the initial
      threshold enables every category. */
  lemma LevelsOrdered()
    ensures VERBOSE_LEVEL < DEBUG_LEVEL < WARN_LEVEL < ERROR_LEVEL
    ensures !Enabled(WARN_LEVEL, VERBOSE_LEVEL) && !Enabled(WARN_LEVEL, DEBUG_LEVEL)
    ensures Enabled(WARN_LEVEL, WARN_LEVEL) && Enabled(WARN_LEVEL, ERROR_LEVEL)
    ensures forall level: nat :: Enabled(VERBOSE_LEVEL, level)
  {
  }

  /** A value streamed into a category. */
  datatype Value = Str(s: string) | Int(i: int)

  /** What `stream << v` writes. */
  function Text(v: Value): string
  {
    match v
    case Str(s) => s
    case Int(i) => IntToDecimal(i)
  }

  /** The text of several values streamed one after the other, each written
      as `text` renders it (`Text` for the stream of this model). */
  function Texts(text: Value -> string, vs: seq<Value>): string
  {
    if vs == [] then "" else Texts(text, vs[..|vs| - 1]) + text(vs[|vs| - 1])
  }

  /** Streaming one more value extends the text by that value's text. */
  lemma TextsStep(text: Value -> string, vs: seq<Value>, i: nat)
    requires i < |vs|
    ensures Texts(text, vs[..i + 1]) == Texts(text, vs[..i]) + text(vs[i])
  {
    assert vs[..i + 1][..i] == vs[..i];
  }

  /** Streaming two runs of values one after the other gives the text of the
      first run followed by that of the second. */
  lemma {:induction false} TextsAppend(text: Value -> string, a: seq<Value>, b: seq<Value>)
    ensures Texts(text, a + b) == Texts(text, a) + Texts(text, b)
    decreases |b|
  {
    if b == [] {
      assert a + b == a;
    } else {
      var b', last := b[..|b| - 1], b[|b| - 1];
      assert (a + b)[..|a + b| - 1] == a + b' && (a + b)[|a + b| - 1] == last;
      TextsAppend(text, a, b');
      calc {
        Texts(text, a + b);
        Texts(text, a + b') + text(last);
        Texts(text, a) + Texts(text, b') + text(last);
        Texts(text, a) + (Texts(text, b') + text(last));
        Texts(text, a) + Texts(text, b);
      }
    }
  }

  /** The backend: the default one, or one the program installed (whose
      output is outside this model). */
  datatype Backend = DefaultBackend | UserBackend(id: nat)

  /** One call of the backend with its five arguments. */
  datatype BackendCall = BackendCall(backend: Backend, level: nat, name: string, file: string, line: nat, content: string)

  /** The line the default backend writes to standard output for a call; it
      does not look at the level. */
  function DefaultBackendLine(level: nat, name: string, file: string, line: nat, content: string): string
  {
    "[" + name + "][" + file + "(" + NatToDecimal(line) + ")]: " + content
  }

  /** The fields of a default backend line. */
  datatype DefaultFields = DefaultFields(name: string, file: string, line: nat, content: string)

  /** Reads a line `[<name>][<file>(<line>)]: <content>` back into its fields. */
  function ParseDefaultLine(r: string): Option<DefaultFields>
  {
    if r == [] || r[0] != '[' then None
    else
      var name := TakeUntil(r[1..], ']');
      if |name| == |r| - 1 then None
      else ParseDefaultLocation(name, r[|name| + 2..])
  }

  function ParseDefaultLocation(name: string, rest: string): Option<DefaultFields>
  {
    if rest == [] || rest[0] != '[' then None
    else
      var file := TakeUntil(rest[1..], '(');
      if |file| == |rest| - 1 then None
      else ParseDefaultLineNumber(name, file, rest[|file| + 2..])
  }

  function ParseDefaultLineNumber(name: string, file: string, tail: string): Option<DefaultFields>
  {
    var digits := TakeUntil(tail, ')');
    if |digits| == |tail| || !IsDigits(digits) then None
    else
      var after := tail[|digits| + 1..];
      if |after| < 3 || after[..3] != "]: " then None
      else Some(DefaultFields(name, file, DecimalValue(digits), after[3..]))
  }

  lemma DefaultLineNumberLayout(name: string, file: string, line: nat, content: string)
    ensures ParseDefaultLineNumber(name, file, NatToDecimal(line) + [')'] + ("]: " + content))
         == Some(DefaultFields(name, file, line, content))
  {
    var digits := NatToDecimal(line);
    DecimalRoundTrip(line);
    assert ')' !in digits;
    TakeUntilJoin(digits, ')', "]: " + content);
    assert (digits + [')'] + ("]: " + content))[|digits| + 1..] == "]: " + content;
  }

  lemma DefaultLocationLayout(name: string, file: string, tail: string)
    requires '(' !in file
    ensures ParseDefaultLocation(name, ['['] + (file + ['('] + tail)) == ParseDefaultLineNumber(name, file, tail)
  {
    var rest := ['['] + (file + ['('] + tail);
    assert rest[1..] == file + ['('] + tail;
    TakeUntilJoin(file, '(', tail);
    assert rest[|file| + 2..] == tail;
  }

  lemma DefaultLabelLayout(name: string, rest: string)
    requires ']' !in name
    ensures ParseDefaultLine(['['] + (name + [']'] + rest)) == ParseDefaultLocation(name, rest)
  {
    var r := ['['] + (name + [']'] + rest);
    assert r[1..] == name + [']'] + rest;
    TakeUntilJoin(name, ']', rest);
    assert r[|name| + 2..] == rest;
  }

  lemma RegroupDefault(name: string, file: string, digits: string, content: string)
    ensures "[" + name + "][" + file + "(" + digits + ")]: " + content
         == ['['] + (name + [']'] + (['['] + (file + ['('] + (digits + [')'] + ("]: " + content)))))
  {
  }

  /** The default backend writes `[name][file(line)]: content`: the line
      gives back name, file, line and content (when the name holds no `]`
      and the file no `(`), and the level argument plays no part in it. */
  lemma DefaultBackendLineFields(level: nat, name: string, file: string, line: nat, content: string)
    requires ']' !in name && '(' !in file
    ensures ParseDefaultLine(DefaultBackendLine(level, name, file, line, content))
         == Some(DefaultFields(name, file, line, content))
    ensures forall other: nat :: DefaultBackendLine(other, name, file, line, content)
                              == DefaultBackendLine(level, name, file, line, content)
  {
    var tail := NatToDecimal(line) + [')'] + ("]: " + content);
    RegroupDefault(name, file, NatToDecimal(line), content);
    DefaultLabelLayout(name, ['['] + (file + ['('] + tail));
    DefaultLocationLayout(name, file, tail);
    DefaultLineNumberLayout(name, file, line, content);
  }

  /** `logger::category`: a name (its label) and a level fixed at construction, the text
      streamed since the last release, and the last source location set. */
  class Category {
    const name: string
    const level: nat
    var buffer: string
    var file: string
    var line: nat

    /** A category of static storage: the line starts zero-initialised. */
    constructor (name: string, level: nat)
      ensures this.name == name && this.level == level
      ensures buffer == "" && file == "" && line == 0
    {
      this.name, this.level := name, level;
      buffer, file, line := "", "", 0;
    }

    /** `operator<<`: appends the value's text exactly when the category is
        enabled; the buffer is otherwise unchanged. */
    method Append(g: Logger, v: Value) returns (c: Category)
      modifies this`buffer
      ensures c == this
      ensures Enabled(g.threshold, level) ==> buffer == old(buffer) + Text(v)
      ensures !Enabled(g.threshold, level) ==> buffer == old(buffer)
    {
      if Enabled(g.threshold, level) {
        buffer := buffer + Text(v);
      }
      c := this;
    }

    /** `set_source_location`: overwrites the file and line only and returns
        the same category. */
    method SetSourceLocation(file: string, line: nat) returns (c: Category)
      modifies this`file, this`line
      ensures c == this && this.file == file && this.line == line
    {
      this.file, this.line := file, line;
      c := this;
    }

    /** `release_line`: a disabled category returns at once, keeping its
        buffer; an enabled one calls the backend exactly once with its level,
        name, location and buffered text, and is left with an empty buffer. */
    method ReleaseLine(g: Logger)
      modifies this`buffer, g`calls
      ensures !Enabled(g.threshold, level) ==> buffer == old(buffer) && g.calls == old(g.calls)
      ensures Enabled(g.threshold, level) ==>
        g.calls == old(g.calls) + [BackendCall(g.backend, level, name, file, line, old(buffer))] && buffer == ""
    {
      if !Enabled(g.threshold, level) {
        return;
      }
      g.calls := g.calls + [BackendCall(g.backend, level, name, file, line, buffer)];
      buffer := "";
    }
  }

  /** `logger::category_wrapper`: the temporary a selector returns. */
  class CategoryWrapper {
    const cat: Category

    constructor (cat: Category)
      ensures this.cat == cat
    {
      this.cat := cat;
    }

    /** `operator<<` forwards to the category. */
    method Append(g: Logger, v: Value) returns (w: CategoryWrapper)
      modifies cat`buffer
      ensures w == this
      ensures Enabled(g.threshold, cat.level) ==> cat.buffer == old(cat.buffer) + Text(v)
      ensures !Enabled(g.threshold, cat.level) ==> cat.buffer == old(cat.buffer)
    {
      var _ := cat.Append(g, v);
      w := this;
    }

    /** A chain `w << v1 << ... << vn`: the buffer gains the values' text in
        order when the category is enabled, and is unchanged otherwise. */
    method AppendAll(g: Logger, values: seq<Value>)
      modifies cat`buffer
      ensures Enabled(g.threshold, cat.level) ==> cat.buffer == old(cat.buffer) + Texts(Text, values)
      ensures !Enabled(g.threshold, cat.level) ==> cat.buffer == old(cat.buffer)
    {
      ghost var on := Enabled(g.threshold, cat.level);
      ghost var start := cat.buffer;
      var i := 0;
      while i < |values|
        invariant 0 <= i <= |values|
        invariant on ==> cat.buffer == start + Texts(Text, values[..i])
        invariant !on ==> cat.buffer == start
      {
        TextsStep(Text, values, i);
        var _ := Append(g, values[i]);
        i := i + 1;
      }
      assert values[..i] == values;
    }

    /** The destructor releases the category's line, exactly once. */
    method Destroy(g: Logger)
      modifies cat`buffer, g`calls
      ensures !Enabled(g.threshold, cat.level) ==> cat.buffer == old(cat.buffer) && g.calls == old(g.calls)
      ensures Enabled(g.threshold, cat.level) ==>
        g.calls == old(g.calls) + [BackendCall(g.backend, cat.level, cat.name, cat.file, cat.line, old(cat.buffer))]
        && cat.buffer == ""
    {
      cat.ReleaseLine(g);
    }
  }

  /** Which of the four categories a selector picks. */
  datatype Which = VerboseCategory | DebugCategory | WarnCategory | ErrorCategory

  /** The header file's name as `__FILE__` spells it where the selectors are
      declared (the exact spelling depends on the include path). */
  const HeaderFile: string := "cpplog.h"

  /** The line of the selector's declaration, which `__LINE__` gives as the
      default line argument. */
  function DefaultLine(which: Which): nat
  {
    match which
    case VerboseCategory => 102
    case DebugCategory => 107
    case WarnCategory => 112
    case ErrorCategory => 117
  }

  /** `struct logger`'s static state: the threshold, the backend, the record
      of backend calls, and the calling thread's four categories. */
  class Logger {
    var threshold: nat
    var backend: Backend
    var calls: seq<BackendCall>
    const verbose: Category
    const debug: Category
    const warn: Category
    const error: Category

    /** The four categories are distinct objects with the labels and levels
        given in src/cpplog.cpp. */
    ghost predicate Valid()
    {
      verbose.name == "VERBOSE" && verbose.level == VERBOSE_LEVEL &&
      debug.name == "DEBUG" && debug.level == DEBUG_LEVEL &&
      warn.name == "WARN" && warn.level == WARN_LEVEL &&
      error.name == "ERROR" && error.level == ERROR_LEVEL &&
      verbose != debug && verbose != warn && verbose != error &&
      debug != warn && debug != error && warn != error
    }

    function CategoryOf(which: Which): (c: Category)
      ensures Valid() ==> c.level == match which
        case VerboseCategory => VERBOSE_LEVEL
        case DebugCategory => DEBUG_LEVEL
        case WarnCategory => WARN_LEVEL
        case ErrorCategory => ERROR_LEVEL
    {
      match which
      case VerboseCategory => verbose
      case DebugCategory => debug
      case WarnCategory => warn
      case ErrorCategory => error
    }

    /** The initial state of src/cpplog.cpp: the four categories, threshold
        VERBOSE_LEVEL (every category enabled), the default backend. */
    constructor ()
      ensures Valid()
      ensures verbose.buffer == "" && debug.buffer == "" && warn.buffer == "" && error.buffer == ""
      ensures threshold == VERBOSE_LEVEL && backend == DefaultBackend && calls == []
      ensures fresh(verbose) && fresh(debug) && fresh(warn) && fresh(error)
    {
      threshold := VERBOSE_LEVEL;
      backend := DefaultBackend;
      calls := [];
      verbose := new Category("VERBOSE", VERBOSE_LEVEL);
      debug := new Category("DEBUG", DEBUG_LEVEL);
      warn := new Category("WARN", WARN_LEVEL);
      error := new Category("ERROR", ERROR_LEVEL);
    }

    /** `logger::verbose(file, line)`. */
    method Verbose(file: string, line: nat) returns (w: CategoryWrapper)
      modifies verbose`file, verbose`line
      ensures fresh(w) && w.cat == verbose && verbose.file == file && verbose.line == line
    {
      var c := verbose.SetSourceLocation(file, line);
      w := new CategoryWrapper(c);
    }

    /** `logger::debug(file, line)`. */
    method Debug(file: string, line: nat) returns (w: CategoryWrapper)
      modifies debug`file, debug`line
      ensures fresh(w) && w.cat == debug && debug.file == file && debug.line == line
    {
      var c := debug.SetSourceLocation(file, line);
      w := new CategoryWrapper(c);
    }

    /** `logger::warn(file, line)`. */
    method Warn(file: string, line: nat) returns (w: CategoryWrapper)
      modifies warn`file, warn`line
      ensures fresh(w) && w.cat == warn && warn.file == file && warn.line == line
    {
      var c := warn.SetSourceLocation(file, line);
      w := new CategoryWrapper(c);
    }

    /** `logger::error(file, line)`. */
    method Error(file: string, line: nat) returns (w: CategoryWrapper)
      modifies error`file, error`line
      ensures fresh(w) && w.cat == error && error.file == file && error.line == line
    {
      var c := error.SetSourceLocation(file, line);
      w := new CategoryWrapper(c);
    }

    /** `set_level`: replaces the threshold and nothing else. */
    method SetLevel(newLevel: nat)
      modifies this`threshold
      ensures threshold == newLevel
    {
      threshold := newLevel;
    }

    /** `set_backend`: replaces the backend and nothing else. */
    method SetBackend(newBackend: Backend)
      modifies this`backend
      ensures backend == newBackend
    {
      backend := newBackend;
    }

    /** The selector named by `which`. */
    method Select(which: Which, file: string, line: nat) returns (w: CategoryWrapper)
      modifies CategoryOf(which)`file, CategoryOf(which)`line
      ensures fresh(w) && w.cat == CategoryOf(which)
      ensures CategoryOf(which).file == file && CategoryOf(which).line == line
    {
      match which {
        case VerboseCategory => w := Verbose(file, line);
        case DebugCategory => w := Debug(file, line);
        case WarnCategory => w := Warn(file, line);
        case ErrorCategory => w := Error(file, line);
      }
    }

    /** One log statement `logger::<which>(file, line) << v1 << ... << vn;`:
        the selector, the chain of `<<`, and the wrapper's destruction at the
        end of the statement. An enabled category makes exactly one backend
        call carrying the statement's location and the values' text in order,
        and ends with an empty buffer; a disabled one makes no call and keeps
        its buffer. The other categories are untouched. */
    method Statement(which: Which, file: string, line: nat, values: seq<Value>)
      requires Valid()
      modifies CategoryOf(which)`buffer, CategoryOf(which)`file, CategoryOf(which)`line, this`calls
      ensures var c := CategoryOf(which);
        c.file == file && c.line == line &&
        (Enabled(threshold, c.level) ==>
          calls == old(calls) + [BackendCall(backend, c.level, c.name, file, line, old(c.buffer) + Texts(Text, values))]
          && c.buffer == "") &&
        (!Enabled(threshold, c.level) ==> calls == old(calls) && c.buffer == old(c.buffer))
    {
      var w := Select(which, file, line);
      w.AppendAll(this, values);
      w.Destroy(this);
    }

    /** The same statement written without arguments, as in
        `logger::verbose() << ...`: the default arguments `__FILE__` and
        `__LINE__` are expanded where the selector is declared, so the backend
        receives the header's name and the declaration's line, wherever the
        statement is. */
    method StatementAtDefaultSite(which: Which, values: seq<Value>)
      requires Valid()
      modifies CategoryOf(which)`buffer, CategoryOf(which)`file, CategoryOf(which)`line, this`calls
      ensures var c := CategoryOf(which);
        c.file == HeaderFile && c.line == DefaultLine(which) &&
        (Enabled(threshold, c.level) ==>
          calls == old(calls) + [BackendCall(backend, c.level, c.name, HeaderFile, DefaultLine(which), old(c.buffer) + Texts(Text, values))]
          && c.buffer == "") &&
        (!Enabled(threshold, c.level) ==> calls == old(calls) && c.buffer == old(c.buffer))
    {
      Statement(which, HeaderFile, DefaultLine(which), values);
    }
  }

  /** One pass of the example program's loop after `set_level(WARN_LEVEL)`,
      with statements that rely on the default arguments: the verbose and
      debug statements make no backend call, and the warn and error
      statements each make one, reporting the header and the selectors'
      declaration lines. */
  method WarnThresholdAtDefaultSite(values: seq<Value>) returns (calls: seq<BackendCall>)
    ensures calls == [BackendCall(DefaultBackend, WARN_LEVEL, "WARN", HeaderFile, 112, Texts(Text, values)),
                      BackendCall(DefaultBackend, ERROR_LEVEL, "ERROR", HeaderFile, 117, Texts(Text, values))]
  {
    var g := new Logger();
    g.SetLevel(WARN_LEVEL);
    g.StatementAtDefaultSite(VerboseCategory, values);
    g.StatementAtDefaultSite(DebugCategory, values);
    assert g.calls == [] && g.warn.buffer == "" && g.error.buffer == "";
    assert g.backend == DefaultBackend && g.threshold == WARN_LEVEL;
    assert "" + Texts(Text, values) == Texts(Text, values);
    g.StatementAtDefaultSite(WarnCategory, values);
    g.StatementAtDefaultSite(ErrorCategory, values);
    calls := g.calls;
  }
}
