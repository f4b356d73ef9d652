/**
 * The logger as values: the process-wide state of the `Logger` class (its
 * static members), the files and console streams it writes, the per-call
 * message builder, and one function per operation of Logger.cpp.  The classes
 * in module LoggerImpl are proved to change their fields exactly as these
 * functions say; the lemmas here state what the operations promise.
 */
module LoggerModel {
  import opened Wrappers
  import opened Levels
  import opened DateTimeHelper

  /** What the static `logstream` pointer refers to. */
  datatype Stream =
    | NoStream            // NULL: initialize has never been called
    | Open(path: string)  // the stream initialize opened on `path`, in append mode
    | Released            // closed and deleted by finalize; the pointer is not reset

  /**
   * The static members of Logger (`initialized`, `logstream`, `minLogLevel`)
   * and what the logger writes to: the contents of the files by path, and
   * everything written so far to stdout and to stderr.
   */
  datatype World = World(
    initialized: bool,
    logstream: Stream,
    minLogLevel: LogLevel,
    files: map<string, string>,
    stdout: string,
    stderr: string)

  /**
   * The logger is initialized exactly while its stream is open, and the file
   * of an open stream exists (opening in append mode creates it).
   */
  predicate Valid(w: World) {
    (w.initialized <==> w.logstream.Open?) &&
    (w.logstream.Open? ==> w.logstream.path in w.files)
  }

  /** The state at program start (the static initialisers), over the files that already exist. */
  function Startup(files: map<string, string>): (w: World)
    ensures Valid(w) && !w.initialized && w.logstream == NoStream && w.minLogLevel == INFO
    ensures w.files == files && w.stdout == "" && w.stderr == ""
  {
    World(false, NoStream, INFO, files, "", "")
  }

  /** The contents of a file; a file that does not exist reads as empty. */
  function FileText(files: map<string, string>, path: string): string {
    if path in files then files[path] else ""
  }

  /** Writing text at the end of a file opened in append mode. */
  function AppendFile(files: map<string, string>, path: string, text: string): map<string, string> {
    files[path := FileText(files, path) + text]
  }

  // ---------------------------------------------------------------------------
  // The static operations

  /** The first lines initialize writes: the START banner and an empty line. */
  function StartBanner(dateTime: string): string {
    "========== START: " + dateTime + " ==========" + "\n" + "\n"
  }

  /** The last lines finalize writes: an empty line, the END banner and another empty line. */
  function EndBanner(dateTime: string): string {
    "\n" + "========== END: " + dateTime + " ==========" + "\n" + "\n"
  }

  /**
   * `initialize(logPath)`: threshold back to INFO, the file opened in append
   * mode, the START banner with the current date and time, and the flag set.
   */
  function Initialize(w: World, logPath: string, now: Tm): (r: World)
    requires !w.initialized && ValidTm(now)
    ensures Valid(r) && r.initialized && r.minLogLevel == INFO
    ensures r.logstream == Open(logPath)
    ensures r.files.Keys == w.files.Keys + {logPath}
    ensures r.files[logPath] == FileText(w.files, logPath) + StartBanner(GetDateTime(now))
    ensures forall p :: p in w.files && p != logPath ==> r.files[p] == w.files[p]
    ensures r.stdout == w.stdout && r.stderr == w.stderr
  {
    var w1 := w.(minLogLevel := INFO, logstream := Open(logPath));
    var w2 := w1.(files := AppendFile(w1.files, logPath, StartBanner(GetDateTime(now))));
    w2.(initialized := true)
  }

  /** `setLogLevel(level)`. */
  function SetLogLevel(w: World, level: LogLevel): (r: World)
    ensures Valid(w) ==> Valid(r)
  {
    w.(minLogLevel := level)
  }

  /**
   * `finalize()`: the flag cleared; if there is a stream, the END banner is
   * written and the stream closed and deleted.  A second finalize would delete
   * the stream again, so the stream must not have been released already.
   */
  function Finalize(w: World, now: Tm): (r: World)
    requires !w.logstream.Released? && ValidTm(now)
    ensures Valid(w) ==> Valid(r)
    ensures !r.initialized && r.minLogLevel == w.minLogLevel
    ensures r.stdout == w.stdout && r.stderr == w.stderr
    ensures w.logstream.NoStream? ==> r.logstream == NoStream && r.files == w.files
    ensures w.logstream.Open? ==>
      var path := w.logstream.path;
      r.logstream == Released &&
      r.files.Keys == w.files.Keys + {path} &&
      r.files[path] == FileText(w.files, path) + EndBanner(GetDateTime(now)) &&
      forall p :: p in w.files && p != path ==> r.files[p] == w.files[p]
  {
    var w1 := w.(initialized := false);
    if w1.logstream.Open? then
      var w2 := w1.(files := AppendFile(w1.files, w1.logstream.path, EndBanner(GetDateTime(now))));
      w2.(logstream := Released)
    else
      w1
  }

  // ---------------------------------------------------------------------------
  // The message builder

  /** The per-call fields of a Logger object, which builds one message. */
  datatype Builder = Builder(logLevel: LogLevel, outputMode: OutputMode, os: string, freeLogging: bool)

  /**
   * `Logger()`: free-form, with an empty buffer.  The C++ constructor leaves
   * the level and the mode indeterminate; they are parameters here, and every
   * `log` overload overwrites them (lemma SelectIgnoresIndeterminate).
   */
  function Construct(logLevel: LogLevel, outputMode: OutputMode): Builder {
    Builder(logLevel, outputMode, "", true)
  }

  /** `log()`: level INFO and stdout; the buffer and the free-form flag are left alone. */
  function LogRaw(b: Builder): Builder {
    b.(logLevel := INFO, outputMode := STD_OUT)
  }

  /** The header of a leveled message: `[elapsed] (name) `. */
  function Header(elapsed: string, level: LogLevel): string {
    "[" + elapsed + "] (" + LevelName(level) + ") "
  }

  /** The four headers, spelled out. */
  lemma HeaderFormat(elapsed: string)
    ensures Header(elapsed, DEBUG) == "[" + elapsed + "] (debug) "
    ensures Header(elapsed, INFO) == "[" + elapsed + "] (info) "
    ensures Header(elapsed, WARNING) == "[" + elapsed + "] (WARNING) "
    ensures Header(elapsed, ERROR) == "[" + elapsed + "] (ERROR) "
  {
  }

  /**
   * `log(level, mode)`: the builder stops being free-form; if the logger is not
   * initialized it falls back to `log()`, otherwise it takes the level and the
   * mode and starts the buffer with the header.
   */
  function LogAtMode(b: Builder, level: LogLevel, mode: OutputMode, initialized: bool, elapsed: string): Builder {
    var b1 := b.(freeLogging := false);
    if !initialized then LogRaw(b1)
    else b1.(logLevel := level, outputMode := mode, os := b1.os + Header(elapsed, level))
  }

  /** `log(level)`: `log(level, STD_ERR)` from WARNING upwards, `log(level, STD_OUT)` below. */
  function LogAt(b: Builder, level: LogLevel, initialized: bool, elapsed: string): Builder {
    LogAtMode(b, level, DefaultMode(level), initialized, elapsed)
  }

  /** Appending text to the builder's buffer (`<<`). */
  function Append(b: Builder, text: string): Builder {
    b.(os := b.os + text)
  }

  /** What a builder writes when it passes the threshold: its buffer, plus a newline unless free-form. */
  function Line(b: Builder): string {
    if b.freeLogging then b.os else b.os + "\n"
  }

  /**
   * `~Logger()`: below the threshold nothing at all is written; otherwise the
   * line goes to the log file if the logger is initialized, and to stderr,
   * stdout or neither according to the mode.  The logger's own state is
   * never changed.
   */
  function Flush(b: Builder, w: World): (r: World)
    requires Valid(w)
    ensures Valid(r)
    ensures r.initialized == w.initialized && r.logstream == w.logstream && r.minLogLevel == w.minLogLevel
    ensures !AtLeast(b.logLevel, w.minLogLevel) ==> r == w
    ensures AtLeast(b.logLevel, w.minLogLevel) ==>
      r.files == (if w.initialized then AppendFile(w.files, w.logstream.path, Line(b)) else w.files)
    ensures AtLeast(b.logLevel, w.minLogLevel) ==>
      r.stdout == w.stdout + (if b.outputMode == STD_OUT then Line(b) else "") &&
      r.stderr == w.stderr + (if b.outputMode == STD_ERR then Line(b) else "")
  {
    if !AtLeast(b.logLevel, w.minLogLevel) then w
    else
      var line := Line(b);
      var w1 := if w.initialized then w.(files := AppendFile(w.files, w.logstream.path, line)) else w;
      if b.outputMode == STD_ERR then w1.(stderr := w1.stderr + line)
      else if b.outputMode == STD_OUT then w1.(stdout := w1.stdout + line)
      else w1
  }

  // ---------------------------------------------------------------------------
  // LOG statements

  /** The three forms of LOG: `LOG()`, `LOG(level)` and `LOG(level, mode)`. */
  datatype Call = Raw | Leveled(level: LogLevel) | LeveledTo(level: LogLevel, mode: OutputMode)

  /** The `log` overload a call form selects, applied to a builder. */
  function Select(b: Builder, call: Call, initialized: bool, elapsed: string): Builder {
    match call
    case Raw => LogRaw(b)
    case Leveled(level) => LogAt(b, level, initialized, elapsed)
    case LeveledTo(level, mode) => LogAtMode(b, level, mode, initialized, elapsed)
  }

  /**
   * One statement `LOG(...) << text;`: the macro constructs a fresh Logger,
   * calls one `log` overload on it, appends the text, and the temporary is
   * destroyed, and so flushed, at the end of the statement.
   */
  function Statement(w: World, call: Call, text: string, elapsed: string): World
    requires Valid(w)
  {
    Flush(Append(Select(Construct(INFO, STD_OUT), call, w.initialized, elapsed), text), w)
  }

  /** The level and the mode the constructor leaves indeterminate never matter. */
  lemma SelectIgnoresIndeterminate(call: Call, initialized: bool, elapsed: string,
                                   l0: LogLevel, m0: OutputMode, l1: LogLevel, m1: OutputMode)
    ensures Select(Construct(l0, m0), call, initialized, elapsed) == Select(Construct(l1, m1), call, initialized, elapsed)
  {
  }

  // ---------------------------------------------------------------------------
  // What a statement writes, stated destination by destination

  /** What one statement adds to the log file, to stdout and to stderr. */
  datatype Output = Output(toFile: string, toStdout: string, toStderr: string)

  const Nothing := Output("", "", "")

  /** Adds an output to a world: the file part to the open log file, if any. */
  function Emit(w: World, o: Output): World
    requires Valid(w)
  {
    w.(files := if w.initialized then AppendFile(w.files, w.logstream.path, o.toFile) else w.files,
       stdout := w.stdout + o.toStdout,
       stderr := w.stderr + o.toStderr)
  }

  /** The level a statement is filtered at: its own when leveled and initialized, INFO otherwise. */
  function EffectiveLevel(initialized: bool, call: Call): LogLevel {
    if call.Raw? || !initialized then INFO else call.level
  }

  /** The console a statement goes to: the requested or level-chosen one when initialized, stdout otherwise. */
  function EffectiveMode(initialized: bool, call: Call): OutputMode {
    match call
    case Raw => STD_OUT
    case Leveled(level) => if initialized then DefaultMode(level) else STD_OUT
    case LeveledTo(_, mode) => if initialized then mode else STD_OUT
  }

  /**
   * The text of a statement: `LOG()` writes its text verbatim; a leveled call
   * adds a newline, and the header too when the logger is initialized.
   */
  function MessageText(initialized: bool, call: Call, text: string, elapsed: string): string {
    if call.Raw? then text
    else if !initialized then text + "\n"
    else Header(elapsed, call.level) + text + "\n"
  }

  /** What a statement should write: all of its text, or nothing below the threshold. */
  function Expected(w: World, call: Call, text: string, elapsed: string): Output {
    var line := MessageText(w.initialized, call, text, elapsed);
    var mode := EffectiveMode(w.initialized, call);
    if !AtLeast(EffectiveLevel(w.initialized, call), w.minLogLevel) then Nothing
    else Output(if w.initialized then line else "",
                if mode == STD_OUT then line else "",
                if mode == STD_ERR then line else "")
  }

  lemma AppendNothing(files: map<string, string>, path: string)
    requires path in files
    ensures AppendFile(files, path, "") == files
  {
    assert files[path] + "" == files[path];
  }

  /** The builder, its `log` overloads and its destructor together write exactly what Expected says. */
  lemma StatementMatchesExpected(w: World, call: Call, text: string, elapsed: string)
    requires Valid(w)
    ensures Statement(w, call, text, elapsed) == Emit(w, Expected(w, call, text, elapsed))
  {
    var b := Append(Select(Construct(INFO, STD_OUT), call, w.initialized, elapsed), text);
    assert b.logLevel == EffectiveLevel(w.initialized, call);
    assert b.outputMode == EffectiveMode(w.initialized, call);
    if call.LeveledTo? && w.initialized {
      assert Line(b) == Header(elapsed, call.level) + text + "\n";
    }
    assert Line(b) == MessageText(w.initialized, call, text, elapsed);
    if w.initialized {
      AppendNothing(w.files, w.logstream.path);
    }
  }

  /**
   * The three usages documented in Logger.h: `LOG()` writes raw text to the
   * log and stdout, `LOG(WARNING)` a formatted line to the log and stderr, and
   * `LOG(ERROR, FILE_ONLY)` a formatted line to the log file only.
   */
  lemma UsageExamples(w: World, text: string, elapsed: string)
    requires Valid(w) && w.initialized
    ensures AtLeast(INFO, w.minLogLevel) ==>
      Expected(w, Raw, text, elapsed) == Output(text, text, "")
    ensures AtLeast(WARNING, w.minLogLevel) ==>
      var line := "[" + elapsed + "] (WARNING) " + text + "\n";
      Expected(w, Leveled(WARNING), text, elapsed) == Output(line, "", line)
    ensures
      var line := "[" + elapsed + "] (ERROR) " + text + "\n";
      Expected(w, LeveledTo(ERROR, FILE_ONLY), text, elapsed) == Output(line, "", "")
  {
    assert Header(elapsed, WARNING) + text + "\n" == "[" + elapsed + "] (WARNING) " + text + "\n";
    assert Header(elapsed, ERROR) + text + "\n" == "[" + elapsed + "] (ERROR) " + text + "\n";
  }

  /**
   * Once initialized, a leveled statement at `level` changes nothing if and
   * only if `level` is below the threshold.
   */
  lemma LeveledWrittenIffAtThreshold(w: World, call: Call, text: string, elapsed: string)
    requires Valid(w) && w.initialized && !call.Raw?
    ensures Statement(w, call, text, elapsed) == w <==> !AtLeast(call.level, w.minLogLevel)
  {
    StatementMatchesExpected(w, call, text, elapsed);
    var p := w.logstream.path;
    if AtLeast(call.level, w.minLogLevel) {
      var line := MessageText(w.initialized, call, text, elapsed);
      assert line[0] == '[';
      assert |Statement(w, call, text, elapsed).files[p]| == |w.files[p]| + |line|;
    } else {
      AppendNothing(w.files, p);
    }
  }

  /**
   * Once initialized, `LOG()` above the threshold appends its text verbatim to
   * the log file and to stdout, and changes nothing else.
   */
  lemma RawStatementWrites(w: World, text: string, elapsed: string)
    requires Valid(w) && w.initialized && AtLeast(INFO, w.minLogLevel)
    ensures
      var p := w.logstream.path;
      Statement(w, Raw, text, elapsed) == w.(files := w.files[p := w.files[p] + text], stdout := w.stdout + text)
  {
    StatementMatchesExpected(w, Raw, text, elapsed);
    assert w.stderr + "" == w.stderr;
  }

  /**
   * Once initialized, `LOG(level)` above the threshold appends its formatted
   * line to the log file and to the console its level selects, and changes
   * nothing else.
   */
  lemma LeveledStatementWrites(w: World, level: LogLevel, text: string, elapsed: string)
    requires Valid(w) && w.initialized && AtLeast(level, w.minLogLevel)
    ensures
      var p := w.logstream.path;
      var line := Header(elapsed, level) + text + "\n";
      Statement(w, Leveled(level), text, elapsed) ==
        if AtLeast(level, WARNING) then w.(files := w.files[p := w.files[p] + line], stderr := w.stderr + line)
        else w.(files := w.files[p := w.files[p] + line], stdout := w.stdout + line)
  {
    StatementMatchesExpected(w, Leveled(level), text, elapsed);
    assert w.stderr + "" == w.stderr && w.stdout + "" == w.stdout;
  }

  /**
   * Before initialize, and after finalize, every statement falls back to
   * `log()`: level INFO, stdout only, no header, never the file; a leveled
   * call still gets its newline.
   */
  lemma UninitializedFallback(w: World, call: Call, text: string, elapsed: string)
    requires Valid(w) && !w.initialized
    ensures
      var line := if call.Raw? then text else text + "\n";
      Expected(w, call, text, elapsed) == if AtLeast(INFO, w.minLogLevel) then Output("", line, "") else Nothing
    ensures Statement(w, call, text, elapsed).files == w.files
    ensures Statement(w, call, text, elapsed).stderr == w.stderr
  {
    StatementMatchesExpected(w, call, text, elapsed);
  }

  /**
   * The default threshold is INFO: right after initialize a DEBUG statement is
   * discarded.  After setLogLevel(DEBUG) a DEBUG statement reaches the log file
   * and stdout, and no statement of any kind is discarded any more.
   */
  lemma DefaultThresholdIsInfo(w: World, logPath: string, now: Tm, call: Call, text: string, elapsed: string)
    requires Valid(w) && !w.initialized && ValidTm(now)
    ensures Statement(Initialize(w, logPath, now), Leveled(DEBUG), text, elapsed) == Initialize(w, logPath, now)
    ensures Statement(Initialize(w, logPath, now), LeveledTo(DEBUG, FILE_ONLY), text, elapsed) == Initialize(w, logPath, now)
    ensures
      var w1 := SetLogLevel(Initialize(w, logPath, now), DEBUG);
      var line := Header(elapsed, DEBUG) + text + "\n";
      Statement(w1, Leveled(DEBUG), text, elapsed) ==
        w1.(files := w1.files[logPath := w1.files[logPath] + line], stdout := w1.stdout + line)
    ensures
      var w1 := SetLogLevel(Initialize(w, logPath, now), DEBUG);
      Expected(w1, call, text, elapsed).toFile == MessageText(true, call, text, elapsed)
  {
    var w0 := Initialize(w, logPath, now);
    LeveledWrittenIffAtThreshold(w0, Leveled(DEBUG), text, elapsed);
    LeveledWrittenIffAtThreshold(w0, LeveledTo(DEBUG, FILE_ONLY), text, elapsed);
    var w1 := SetLogLevel(w0, DEBUG);
    LeveledStatementWrites(w1, DEBUG, text, elapsed);
  }

  /** `setLogLevel` changes only the threshold, and the last call wins. */
  lemma SetLogLevelOnlyThreshold(w: World, a: LogLevel, b: LogLevel)
    ensures SetLogLevel(w, a).minLogLevel == a
    ensures SetLogLevel(w, a).(minLogLevel := w.minLogLevel) == w
    ensures SetLogLevel(SetLogLevel(w, a), b) == SetLogLevel(w, b)
    ensures SetLogLevel(w, w.minLogLevel) == w
  {
  }

  /**
   * A session: initialize followed by finalize leaves the file with what it had,
   * then the START banner, then the END banner; the consoles are untouched and
   * the stream is released.
   */
  lemma SessionBanners(w: World, logPath: string, start: Tm, end: Tm)
    requires Valid(w) && !w.initialized && ValidTm(start) && ValidTm(end)
    ensures
      var r := Finalize(Initialize(w, logPath, start), end);
      r.files == AppendFile(w.files, logPath, StartBanner(GetDateTime(start)) + EndBanner(GetDateTime(end))) &&
      r.stdout == w.stdout && r.stderr == w.stderr &&
      !r.initialized && r.logstream == Released
  {
    var s := StartBanner(GetDateTime(start));
    var e := EndBanner(GetDateTime(end));
    assert Finalize(Initialize(w, logPath, start), end).files == AppendFile(AppendFile(w.files, logPath, s), logPath, e);
    AppendTwice(w.files, logPath, s, e);
  }

  /** Two appends to one file are one append of both texts. */
  lemma AppendTwice(files: map<string, string>, path: string, a: string, b: string)
    ensures AppendFile(AppendFile(files, path, a), path, b) == AppendFile(files, path, a + b)
  {
    assert FileText(files, path) + a + b == FileText(files, path) + (a + b);
  }

  /** finalize without a previous initialize changes nothing but the flag, which is already clear. */
  lemma FinalizeWithoutStream(w: World, now: Tm)
    requires Valid(w) && w.logstream.NoStream? && ValidTm(now)
    ensures Finalize(w, now) == w
  {
  }

  // ---------------------------------------------------------------------------
  // Programs: sequences of logger calls

  /** One call a program makes on the logger. */
  datatype Action =
    | Init(logPath: string, now: Tm)
    | SetLevel(level: LogLevel)
    | Fin(now: Tm)
    | Log(call: Call, text: string, elapsed: string)

  /**
   * One call; None for the uses the source does not support: initialize twice
   * without finalize (the old stream leaks), finalize twice (the stream is
   * deleted twice), and clock values outside the range of a C `int`.
   */
  function Step(w: World, a: Action): (r: Option<World>)
    requires Valid(w)
    ensures r.Some? ==> Valid(r.value)
    ensures r.None? <==>
      match a
      case Init(_, now) => w.initialized || !ValidTm(now)
      case Fin(now) => w.logstream.Released? || !ValidTm(now)
      case _ => false
  {
    match a
    case Init(logPath, now) =>
      if w.initialized || !ValidTm(now) then None else Some(Initialize(w, logPath, now))
    case SetLevel(level) => Some(SetLogLevel(w, level))
    case Fin(now) =>
      if w.logstream.Released? || !ValidTm(now) then None else Some(Finalize(w, now))
    case Log(call, text, elapsed) => Some(Statement(w, call, text, elapsed))
  }

  /** A whole program; None as soon as one call is unsupported. */
  function Run(w: World, actions: seq<Action>): (r: Option<World>)
    requires Valid(w)
    ensures r.Some? ==> Valid(r.value)
    decreases |actions|
  {
    if actions == [] then Some(w)
    else
      match Step(w, actions[0])
      case None => None
      case Some(w1) => Run(w1, actions[1..])
  }

  /** w2 is w1 with more text at the end of each file and of each console stream. */
  predicate Extends(w1: World, w2: World) {
    w1.stdout <= w2.stdout && w1.stderr <= w2.stderr &&
    forall p :: p in w1.files ==> p in w2.files && w1.files[p] <= w2.files[p]
  }

  lemma ExtendsTransitive(w1: World, w2: World, w3: World)
    requires Extends(w1, w2) && Extends(w2, w3)
    ensures Extends(w1, w3)
  {
  }

  lemma AppendFileExtends(files: map<string, string>, path: string, text: string)
    ensures forall p :: p in files ==> p in AppendFile(files, path, text) && files[p] <= AppendFile(files, path, text)[p]
  {
  }

  lemma StepExtends(w: World, a: Action)
    requires Valid(w) && Step(w, a).Some?
    ensures Extends(w, Step(w, a).value)
  {
    match a
    case Init(logPath, now) =>
      AppendFileExtends(w.files, logPath, StartBanner(GetDateTime(now)));
    case SetLevel(_) =>
    case Fin(now) =>
      if w.logstream.Open? {
        AppendFileExtends(w.files, w.logstream.path, EndBanner(GetDateTime(now)));
      }
    case Log(call, text, elapsed) =>
      StatementMatchesExpected(w, call, text, elapsed);
      if w.initialized {
        AppendFileExtends(w.files, w.logstream.path, Expected(w, call, text, elapsed).toFile);
      }
  }

  /** Logging is append-only: no program removes or rewrites text already written anywhere. */
  lemma {:induction false} RunIsAppendOnly(w: World, actions: seq<Action>)
    requires Valid(w) && Run(w, actions).Some?
    ensures Extends(w, Run(w, actions).value)
    decreases |actions|
  {
    if actions != [] {
      var w1 := Step(w, actions[0]).value;
      StepExtends(w, actions[0]);
      RunIsAppendOnly(w1, actions[1..]);
      ExtendsTransitive(w, w1, Run(w, actions).value);
    }
  }
}
