/** The severities of the deferred-formatting logger (`log_level_t`) and the
    name its stream operator writes for each. */
module LogLevels {
  import opened Wrappers

  datatype LogLevel = NoneLevel | Critical | Error | Warning | Info | Debug | Verbose

  /** The enumerator's numeric value. */
  function Ordinal(l: LogLevel): (n: nat)
    ensures n <= 6
  {
    match l
    case NoneLevel => 0
    case Critical => 1
    case Error => 2
    case Warning => 3
    case Info => 4
    case Debug => 5
    case Verbose => 6
  }

  /** The enumerator with a given numeric value, if there is one. */
  function FromOrdinal(n: int): (r: Option<LogLevel>)
    ensures r.Some? <==> 0 <= n <= 6
    ensures r.Some? ==> Ordinal(r.value) == n
  {
    if n == 0 then Some(NoneLevel)
    else if n == 1 then Some(Critical)
    else if n == 2 then Some(Error)
    else if n == 3 then Some(Warning)
    else if n == 4 then Some(Info)
    else if n == 5 then Some(Debug)
    else if n == 6 then Some(Verbose)
    else None
  }

  /** The level whose name is `s`, if any. */
  function ParseName(s: string): Option<LogLevel>
  {
    if s == "NONE" then Some(NoneLevel)
    else if s == "CRITICAL" then Some(Critical)
    else if s == "ERROR" then Some(Error)
    else if s == "WARNING" then Some(Warning)
    else if s == "INFO" then Some(Info)
    else if s == "DEBUG" then Some(Debug)
    else if s == "VERBOSE" then Some(Verbose)
    else None
  }

  /** What `stream << level` writes: a non-empty word without spaces from
      which the level can be read back, so no two levels share a name. */
  function Name(l: LogLevel): (name: string)
    ensures |name| > 0 && ' ' !in name
    ensures ParseName(name) == Some(l)
  {
    match l
    case NoneLevel => "NONE"
    case Critical => "CRITICAL"
    case Error => "ERROR"
    case Warning => "WARNING"
    case Info => "INFO"
    case Debug => "DEBUG"
    case Verbose => "VERBOSE"
  }

  /** What `stream << level` writes for an arbitrary value of the enumeration
      type: the switch has no default, so a value outside 0..6 writes nothing. */
  function NameOfOrdinal(n: int): (name: string)
    ensures name == "" <==> !(0 <= n <= 6)
    ensures 0 <= n <= 6 ==> ParseName(name) == FromOrdinal(n)
  {
    match FromOrdinal(n)
    case Some(l) => Name(l)
    case None => ""
  }
}
