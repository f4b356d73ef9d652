# Logger — a Dafny model

This project models a small C++ logging facility made of a header,
`Logger.h`, and its implementation, `Logger.cpp`. A program talks to the
logger in two ways:

* through three global operations on process-wide state: `initialize(logPath)`
  opens a log file for appending and writes a START banner, `setLogLevel(level)`
  sets the minimum level, and `finalize()` writes an END banner and releases
  the file;
* through one short-lived `Logger` object per `LOG(...)` statement. Its `log`
  overload sets the statement's level and output mode and, for leveled calls,
  writes a `[elapsed] (level) ` header. The text streamed into it is
  collected, and its destructor writes the collected text to the log file
  and to stdout or stderr, provided the statement's level is at least the
  minimum level.

The model has five modules:

* `Wrappers` (wrappers.dfy) — the `Option` type.
* `Levels` (levels.dfy) — the two enumerations of `Logger.h`, the level-name
  table and the level-to-console choice made by `log(level)`.
* `DateTimeHelper` (datetime.dfy) — `getDateTime` as a pure function of the
  broken-down local time (`struct tm`). It is paired with a parser, and the
  two are proved to round-trip, so the banner's date text is proved
  injective.
* `LoggerModel` (logger_model.dfy) — the specification level. A `World`
  value holds the three static members plus the observable environment (the
  contents of every file, stdout and stderr). A `Builder` value holds one
  `Logger` object's fields. Each operation is one function on these values.
  A reference function `Expected` states directly what one `LOG` statement
  must emit. `Step` and `Run` give the semantics of whole programs, and the
  lemmas state what the operations promise.
* `LoggerImpl` (logger.dfy) — the imperative form:
  * the `Statics` class holds the three static members;
  * the `Environment` class holds the files and the two consoles;
  * the `Logger` class has the per-statement fields and its methods (`Log`,
    `LogAt`, `LogAtMode`, stream `Append`, and the destructor `Destroy`).

  Each method is proved to change the state exactly as the matching
  `LoggerModel` function says. `LogStatement` is the `LOG(...) << text`
  macro expansion. `Demo` is the example program `Demo.cpp`, and its
  contract gives the exact text of `log.txt`, stdout and stderr.

Some behaviour of the code is easy to miss, and the model follows the code
exactly:

* When `log(level)` or `log(level, mode)` is called before `initialize`
  (or after `finalize`), it falls back to `log()`: no header, stdout, level
  INFO. But `freeLogging` has already been cleared, so the line still ends
  with a newline (`Logger.cpp:103-106`). Only `LOG()` itself writes the text
  unchanged.
* `LOG()` is filtered like any other statement. It has level INFO, so it is
  discarded when the minimum level is WARNING or ERROR (`Logger.cpp:20`,
  `85`).
* The minimum level is read when the statement's `Logger` object is
  destroyed, not when `log` is called (`Logger.cpp:20`).
* The date is written with unpadded fields (`2024-3-5 9:7:2`) and the
  year and month offsets of `struct tm` applied (`Logger.cpp:129-134`).
* `getTimeElapsed` is documented as returning milliseconds, but it returns
  seconds as a `double` (`Logger.h:129-132`, `Logger.cpp:119-122`). The
  model does not depend on this, because the elapsed text is an input.

## Model

| member | source | states |
|---|---|---|
| Levels.FromRank | Logger.h:31 | an integer names a level exactly when it is 0..3, and then the level's enumeration value is that integer |
| Levels.RankRoundTrip | Logger.h:31 | every level's enumeration value converts back to the same level |
| Levels.LevelOrderIsTotal | Logger.h:27-31 | the order on levels is reflexive, total, antisymmetric and transitive, with DEBUG lowest and ERROR highest |
| Levels.LevelNames | Logger.cpp:6 | the header names are "debug", "info", "WARNING", "ERROR", and two levels share a name only if they are the same level |
| Levels.DefaultMode | Logger.cpp:91-99 | `log(level)` prints to stderr exactly when the level is WARNING or above, and to stdout exactly when it is below |
| DateTimeHelper.NatToString | Logger.cpp:129-134 | a number is printed as a non-empty string of decimal digits, with no leading zero unless the number is 0 |
| DateTimeHelper.DigitRun | Logger.cpp:129-134 | the scanned prefix is all digits and is maximal (the text ends or the next character is not a digit) |
| DateTimeHelper.DigitsValueOfNatToString | Logger.cpp:129-134 | reading back the printed digits of a number gives the number |
| DateTimeHelper.ReadIntOfIntToString | Logger.cpp:129-134 | a printed integer, negative ones included, is read back exactly when a non-digit (or the end) follows it |
| DateTimeHelper.ReadFieldOf | Logger.cpp:129-134 | a printed field followed by its separator is read back with the rest of the text left over |
| DateTimeHelper.DateTimeRoundTrip | Logger.cpp:124-136 | the date string `year+1900-mon+1-mday hour:min:sec` parses back to the same broken-down time |
| DateTimeHelper.DateTimeInjective | Logger.cpp:124-136 | two broken-down times print the same date string if and only if they are equal |
| LoggerModel.Startup | Logger.cpp:8-10 | at program start the logger is uninitialized, has no stream, has threshold INFO, and nothing is written yet |
| LoggerModel.Initialize | Logger.cpp:46-59 | after initialize the logger is initialized with threshold INFO and a stream open on `logPath`; that file (created if missing) gains exactly the START banner at its end, every other file and both consoles are unchanged |
| LoggerModel.SetLogLevel | Logger.cpp:61-64 | setting the level keeps the static state consistent |
| LoggerModel.Finalize | Logger.cpp:66-80 | after finalize the logger is uninitialized, the threshold and both consoles are unchanged, and the static state stays consistent; with an open stream the stream is released and its file gains exactly the END banner at its end, every other file unchanged; with no stream no file changes |
| LoggerModel.HeaderFormat | Logger.cpp:111-114 | the header of each level is `[elapsed] (name) ` with that level's name |
| LoggerModel.Flush | Logger.cpp:17-44 | the destructor writes nothing below the threshold; otherwise it appends the message (plus a newline for a leveled call) to the log file when initialized and to the console the mode names, and it never changes the static state |
| LoggerModel.SelectIgnoresIndeterminate | Logger.cpp:12-15 | the level and mode the constructor leaves unset never affect a `LOG` statement, because every `log` overload sets both |
| LoggerModel.AppendNothing | Logger.cpp:28 | proof helper: writing an empty string leaves an existing file unchanged |
| LoggerModel.StatementMatchesExpected | Logger.cpp:12-117 | a `LOG(...) << text` statement (construct, `log`, stream, destroy) has exactly the effect of the reference definition that says what goes to the file, stdout and stderr |
| LoggerModel.UsageExamples | Logger.h:12-14 | `LOG()` writes raw text to the log and stdout, `LOG(WARNING)` a formatted line to the log and stderr, and `LOG(ERROR, FILE_ONLY)` a formatted line to the log only |
| LoggerModel.LeveledWrittenIffAtThreshold | Logger.cpp:19-20 | once initialized, a leveled statement changes nothing if and only if its level is below the threshold |
| LoggerModel.RawStatementWrites | Logger.cpp:82-89 | once initialized and above the threshold, `LOG()` appends its text unchanged to the log file and stdout and changes nothing else, whatever the clock reads |
| LoggerModel.LeveledStatementWrites | Logger.cpp:91-117 | once initialized and above the threshold, `LOG(level)` appends header, text and newline to the log file and to stderr (WARNING and up) or stdout (below), and changes nothing else |
| LoggerModel.UninitializedFallback | Logger.cpp:101-106 | without initialize every statement goes to stdout at level INFO with no header, never to the file or stderr; a leveled call still ends its line |
| LoggerModel.DefaultThresholdIsInfo | Logger.h:86-92 | right after initialize a DEBUG statement is discarded; after initialize and setLogLevel(DEBUG) a DEBUG statement appends its formatted line to the log file and stdout and changes nothing else, and every statement writes its whole text to the log file |
| LoggerModel.SetLogLevelOnlyThreshold | Logger.cpp:61-64 | setLogLevel changes only the threshold, the last call wins, and setting the current level changes nothing |
| LoggerModel.SessionBanners | Logger.cpp:46-80 | initialize then finalize leaves the file's old content, then the START banner, then the END banner; the consoles are untouched and the stream is released |
| LoggerModel.FinalizeWithoutStream | Logger.cpp:66-69 | finalize without a previous initialize changes nothing |
| LoggerModel.Step | Logger.cpp:46-80 | a call keeps the state consistent, and it is unsupported exactly for initialize while initialized, finalize after a finalize that released the stream, or a clock value outside the range of a C `int` |
| LoggerModel.Run | Logger.h:54-56 | a program of supported calls keeps the static state consistent with the open stream |
| LoggerModel.ExtendsTransitive | Logger.cpp:52 | proof helper: append-only growth composes |
| LoggerModel.AppendFileExtends | Logger.cpp:52 | proof helper: appending to a file keeps every existing file, and each file's old content stays a prefix |
| LoggerModel.StepExtends | Logger.cpp:52 | no call removes a file or rewrites what a file, stdout or stderr already holds |
| LoggerModel.RunIsAppendOnly | Logger.cpp:52 | over a whole program, every file, stdout and stderr only grow at the end (the log is opened for appending) |
| LoggerImpl.Environment.constructor | Logger.cpp:8-10 | the environment starts with the given files and empty consoles |
| LoggerImpl.Environment.WriteFile | Logger.cpp:28-29 | writing to the log stream appends to that file only |
| LoggerImpl.Environment.WriteStdout | Logger.cpp:40-41 | writing to stdout appends to stdout only |
| LoggerImpl.Environment.WriteStderr | Logger.cpp:35-36 | writing to stderr appends to stderr only |
| LoggerImpl.Statics.constructor | Logger.cpp:8-10 | the static members start uninitialized, with no stream and threshold INFO |
| LoggerImpl.Statics.Initialize | Logger.cpp:46-59 | the state after initialize is what `LoggerModel.Initialize` gives |
| LoggerImpl.Statics.SetLogLevel | Logger.cpp:61-64 | only the threshold changes, and it becomes the given level |
| LoggerImpl.Statics.Finalize | Logger.cpp:66-80 | the state after finalize is what `LoggerModel.Finalize` gives |
| LoggerImpl.Logger.constructor | Logger.cpp:12-15 | a new object is free-form with an empty stream; level and mode are left unset |
| LoggerImpl.Logger.Log | Logger.cpp:82-89 | `log()` sets level INFO and mode stdout and changes nothing else |
| LoggerImpl.Logger.LogAt | Logger.cpp:91-99 | `log(level)` has the effect of `log(level, mode)` with the mode `DefaultMode` picks |
| LoggerImpl.Logger.LogAtMode | Logger.cpp:101-117 | `log(level, mode)` clears free-form; when initialized it sets level and mode and appends the header, otherwise it falls back to `log()` |
| LoggerImpl.Logger.Append | Logger.h:99-103 | streaming text into the stream returned by a live (not yet destroyed) object appends it to the message |
| LoggerImpl.Logger.Destroy | Logger.cpp:17-44 | the destructor changes the environment exactly as `LoggerModel.Flush` says |
| LoggerImpl.LogStatement | Logger.h:15 | one `LOG(...) << text` statement changes the environment exactly as `LoggerModel.Statement` says |
| LoggerImpl.DemoStart | Demo.cpp:5-8 | after initialize, `log.txt` holds its old content plus the START banner, and the consoles are empty |
| LoggerImpl.DemoFreeText | Demo.cpp:10-12 | the two free-form statements append their text, unchanged, to `log.txt` and stdout |
| LoggerImpl.DemoDebug | Demo.cpp:14-25 | the first DEBUG line is discarded; once the level is DEBUG, the second is written to `log.txt` and stdout |
| LoggerImpl.DemoInfo | Demo.cpp:27-28 | the INFO line goes to `log.txt` and stdout |
| LoggerImpl.DemoProblems | Demo.cpp:30-34 | the WARNING and ERROR lines go to `log.txt` and stderr |
| LoggerImpl.DemoFinish | Demo.cpp:36-38 | finalize appends the END banner to `log.txt`, leaves the consoles alone, and leaves the logger uninitialized with its stream released |
| LoggerImpl.Demo | Demo.cpp:3-41 | the demo program leaves exactly the banners, the free text and four formatted lines in `log.txt`, the free text plus the DEBUG and INFO lines on stdout, and the WARNING and ERROR lines on stderr |

## Left out

- `getTimeElapsed`: the clock is not modelled. The elapsed time is an input string, so the `double` formatting of `clock()/CLOCKS_PER_SEC` is not part of this model.
- `time(0)` and `localtime`: the current broken-down time is an input. Its fields must fit a C `int`, as `tm_year + 1900` must too.
- File handling: opening the log file is assumed to succeed. A missing file starts empty. `close` and `delete` have no effect on content, so they are not modelled.
- Interleaving of the two consoles: stdout and stderr are separate strings, so the order in which their output appears on a shared terminal is not modelled. That order is what the `flush` calls after each write keep (`Logger.cpp:36`, `41`).
- An `initialize` while initialized (which leaks the stream) and a `finalize` after a finalize that released the stream (which deletes the stream twice) are excluded by the preconditions of `LoggerModel.Initialize` and `LoggerModel.Finalize`, and `LoggerModel.Step` rejects them.
- Stream formatting of non-string values: every `<<` operand is text. A chain of `<<` operands is one `Append` of their concatenation, and `std::endl` is `"\n"`.
- File identity: the files are keyed by the path string as given, so two spellings of one file (`log.txt` and `./log.txt`) are two different files in the model.
- Concurrency: the static members are not thread-safe in the source, and the model is sequential.
- The logger as a C++ object in memory: each `LOG` statement creates a fresh `Logger` object, and its lifetime ends at `Destroy`. Copying and aliasing of `Logger` objects are not modelled.
- LoggerModel.SetLogLevel: its own contract states only that consistency is preserved. What it changes is stated by `LoggerModel.SetLogLevelOnlyThreshold`.
- LoggerModel.Run: its own contract states only that consistency is preserved. What a program writes is stated by `LoggerModel.RunIsAppendOnly`.
