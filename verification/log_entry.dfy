/** One captured log call of the deferred-formatting logger (`log_entry`) and
    its rendering: the printf-style message built by `format_log_string`
    behind a prefix naming the level and the source location. */
module LogEntries {
  import opened Wrappers
  import opened Strings
  import opened LogLevels

  const INT_MIN: int := -0x8000_0000
  const INT_MAX: int := 0x7fff_ffff

  /** A 32-bit signed `int` result: the two's-complement wrap-around of `x`. */
  function WrapInt32(x: int): (r: int)
    ensures INT_MIN <= r <= INT_MAX
    ensures INT_MIN <= x <= INT_MAX ==> r == x
    ensures x == INT_MAX + 1 ==> r == INT_MIN
  {
    (x - INT_MIN) % 0x1_0000_0000 + INT_MIN
  }

  /** An argument as the worker reads it when it renders the entry: an
      integer is copied at the call; a C string is stored by its address and
      its characters are read only at rendering, so `StrArg` holds them as
      they are then (the model takes them to be unchanged since the call). */
  datatype Arg = IntArg(i: int) | StrArg(s: string)

  /** The C library's printf-style formatter, as seen by the logger: for a
      format string and arguments, `None` when it reports an error (an invalid
      conversion, an unencodable character), otherwise the full text. */
  type Printf = (string, seq<Arg>) -> Option<string>

  /** The value `snprintf(nullptr, 0, format, args...)` returns: the number of
      characters of the full text, or -1 on error, including when that number
      does not fit in an `int`. */
  function SizePass(out: Option<string>): (n: int)
    ensures -1 <= n <= INT_MAX
    ensures n >= 0 <==> out.Some? && |out.value| <= INT_MAX
    ensures n >= 0 ==> n == |out.value|
  {
    if out.Some? && |out.value| <= INT_MAX then |out.value| else -1
  }

  /** The `std::runtime_error` that `format_log_string` throws. */
  datatype FormatError = FormatError

  /** The text of that exception. */
  const FormatErrorMessage: string := "Error during formatting."

  /** `format_log_string`: a size pass computes `size_s` = count + 1 (room for
      the terminator) in `int` arithmetic; a non-positive `size_s` throws;
      otherwise a buffer of `size_s` characters is filled and all but the
      terminator become the result. */
  function FormatLogString(printf: Printf, format: string, args: seq<Arg>): (r: Result<string, FormatError>)
    ensures var n := SizePass(printf(format, args));
      r.Failure? <==> n < 0 || n == INT_MAX
    ensures r.Success? <==> printf(format, args).Some? && |printf(format, args).value| < INT_MAX
    ensures r.Success? ==> |r.value| == SizePass(printf(format, args)) && r.value == printf(format, args).value
  {
    var out := printf(format, args);
    var sizeS := WrapInt32(SizePass(out) + 1);
    if sizeS <= 0 then Failure(FormatError)
    else Success(out.value[..sizeS - 1])
  }

  /** A captured call: level, format string, source file and line, and the
      arguments as the worker reads them (see `Arg`). */
  datatype Entry = Entry(level: LogLevel, format: string, file: string, line: nat, args: seq<Arg>)

  /** The part of a rendering written before the message. */
  function Prefix(e: Entry): string
  {
    Name(e.level) + " " + e.file + ":" + NatToDecimal(e.line) + " "
  }

  /** `log_entry::to_string`: the prefix, then the formatted message; it
      throws exactly when formatting the message throws. */
  function Render(printf: Printf, e: Entry): (r: Result<string, FormatError>)
    ensures r.Success? <==> FormatLogString(printf, e.format, e.args).Success?
  {
    match FormatLogString(printf, e.format, e.args)
    case Success(message) => Success(Prefix(e) + message)
    case Failure(err) => Failure(err)
  }

  /** The fields a rendered line is made of. */
  datatype Fields = Fields(level: LogLevel, file: string, line: nat, message: string)

  /** Reads a line of the form `<LEVEL> <file>:<line> <message>` back into
      its fields: the level name up to the first space, the file up to the
      next colon, the decimal line up to the next space, then the message. */
  function ParseRendered(r: string): Option<Fields>
  {
    var name := TakeUntil(r, ' ');
    if |name| == |r| then None
    else
      match ParseName(name)
      case None => None
      case Some(level) => ParseLocation(level, r[|name| + 1..])
  }

  function ParseLocation(level: LogLevel, rest: string): Option<Fields>
  {
    var file := TakeUntil(rest, ':');
    if |file| == |rest| then None else ParseLineNumber(level, file, rest[|file| + 1..])
  }

  function ParseLineNumber(level: LogLevel, file: string, tail: string): Option<Fields>
  {
    var digits := TakeUntil(tail, ' ');
    if |digits| == |tail| || !IsDigits(digits) then None
    else Some(Fields(level, file, DecimalValue(digits), tail[|digits| + 1..]))
  }

  lemma ParseLineNumberLayout(level: LogLevel, file: string, line: nat, message: string)
    ensures ParseLineNumber(level, file, NatToDecimal(line) + [' '] + message) == Some(Fields(level, file, line, message))
  {
    var digits := NatToDecimal(line);
    var tail := digits + [' '] + message;
    DecimalRoundTrip(line);
    assert ' ' !in digits;
    TakeUntilJoin(digits, ' ', message);
    assert tail[|digits| + 1..] == message;
  }

  lemma ParseLocationLayout(level: LogLevel, file: string, tail: string)
    requires ':' !in file
    ensures ParseLocation(level, file + [':'] + tail) == ParseLineNumber(level, file, tail)
  {
    TakeUntilJoin(file, ':', tail);
    assert (file + [':'] + tail)[|file| + 1..] == tail;
  }

  lemma ParseNameLayout(level: LogLevel, rest: string)
    ensures ParseRendered(Name(level) + [' '] + rest) == ParseLocation(level, rest)
  {
    var name := Name(level);
    TakeUntilJoin(name, ' ', rest);
    assert (name + [' '] + rest)[|name| + 1..] == rest;
  }

  lemma Regroup(name: string, file: string, digits: string, message: string)
    ensures name + " " + file + ":" + digits + " " + message == name + [' '] + (file + [':'] + (digits + [' '] + message))
  {
  }

  /** Parsing inverts the layout of a rendered line. */
  lemma ParseLayout(level: LogLevel, file: string, line: nat, message: string)
    requires ':' !in file
    ensures ParseRendered(Name(level) + " " + file + ":" + NatToDecimal(line) + " " + message)
         == Some(Fields(level, file, line, message))
  {
    var tail := NatToDecimal(line) + [' '] + message;
    var rest := file + [':'] + tail;
    Regroup(Name(level), file, NatToDecimal(line), message);
    ParseNameLayout(level, rest);
    ParseLocationLayout(level, file, tail);
    ParseLineNumberLayout(level, file, line, message);
  }

  /** A rendered entry is its level name, a space, its file, a colon, its line
      in decimal, a space and its formatted message, in that order: parsing
      the rendering gives back each field, provided the file name holds no colon. */
  lemma RenderParses(printf: Printf, e: Entry)
    requires ':' !in e.file
    requires Render(printf, e).Success?
    ensures ParseRendered(Render(printf, e).value)
         == Some(Fields(e.level, e.file, e.line, FormatLogString(printf, e.format, e.args).value))
  {
    ParseLayout(e.level, e.file, e.line, FormatLogString(printf, e.format, e.args).value);
  }

  /** The line a worker that survives formatting errors writes for an entry:
      the rendering, or the prefix followed by the error's text. */
  function Line(printf: Printf, e: Entry): string
  {
    match Render(printf, e)
    case Success(r) => r
    case Failure(_) => Prefix(e) + FormatErrorMessage
  }
}
