/**
 * The two enumerations of Logger.h (logging levels and output modes), the
 * level-name table of Logger.cpp and the level-to-mode choice made by the
 * one-argument `log(level)`.
 */
module Levels {
  import opened Wrappers

  /**
   * Logging levels, ordered from lowest to largest.  Logger.cpp and Demo.cpp
   * spell the same constants LDEBUG, LINFO, LWARNING and LERROR.
   */
  datatype LogLevel = DEBUG | INFO | WARNING | ERROR

  /**
   * Output modes: FILE_ONLY writes the log file only, STD_ERR also prints
   * to stderr, STD_OUT also prints to stdout.
   */
  datatype OutputMode = FILE_ONLY | STD_ERR | STD_OUT

  /** The integer value of a level in the C++ enumeration (`DEBUG=0`, then 1, 2, 3). */
  function Rank(l: LogLevel): nat {
    match l
    case DEBUG => 0
    case INFO => 1
    case WARNING => 2
    case ERROR => 3
  }

  /** Converts an integer back to the enumeration, when it names one of its constants. */
  function FromRank(n: int): (r: Option<LogLevel>)
    ensures r.Some? <==> 0 <= n < 4
    ensures r.Some? ==> Rank(r.value) == n
  {
    if n == 0 then Some(DEBUG)
    else if n == 1 then Some(INFO)
    else if n == 2 then Some(WARNING)
    else if n == 3 then Some(ERROR)
    else None
  }

  /** `a >= b` as the C++ code compares two levels. */
  predicate AtLeast(a: LogLevel, b: LogLevel) {
    Rank(a) >= Rank(b)
  }

  /** The enumeration and its integer values are in one-to-one correspondence. */
  lemma RankRoundTrip(l: LogLevel)
    ensures FromRank(Rank(l)) == Some(l)
  {
  }

  /** `>=` on levels is a total order with DEBUG at the bottom and ERROR at the top. */
  lemma LevelOrderIsTotal(a: LogLevel, b: LogLevel, c: LogLevel)
    ensures AtLeast(a, a)
    ensures AtLeast(a, b) || AtLeast(b, a)
    ensures AtLeast(a, b) && AtLeast(b, a) ==> a == b
    ensures AtLeast(a, b) && AtLeast(b, c) ==> AtLeast(a, c)
    ensures AtLeast(a, DEBUG) && AtLeast(ERROR, a)
  {
  }

  /** The level names, indexed by the integer value of the level. */
  const LogLevelStrings: seq<string> := ["debug", "info", "WARNING", "ERROR"]

  /** The name printed in a message header for a level: `LogLevelStrings[level]`. */
  function LevelName(l: LogLevel): string {
    LogLevelStrings[Rank(l)]
  }

  /**
   * The header names are lower case for the two lower levels and upper case
   * for the two higher ones, and no two levels share a name.
   */
  lemma LevelNames(a: LogLevel, b: LogLevel)
    ensures LevelName(DEBUG) == "debug" && LevelName(INFO) == "info"
    ensures LevelName(WARNING) == "WARNING" && LevelName(ERROR) == "ERROR"
    ensures LevelName(a) == LevelName(b) <==> a == b
  {
  }

  /** The mode `log(level)` chooses: stderr from WARNING upwards, stdout below. */
  function DefaultMode(level: LogLevel): (m: OutputMode)
    ensures m == STD_ERR <==> AtLeast(level, WARNING)
    ensures m == STD_OUT <==> !AtLeast(level, WARNING)
  {
    if AtLeast(level, WARNING) then STD_ERR else STD_OUT
  }
}
