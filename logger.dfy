/**
 * The logger as it runs: the static members of `Logger` as one object, the
 * files and console streams it writes as another, and `Logger` itself as the
 * short-lived message builder that the LOG macro creates.  Every method is
 * proved to change the state exactly as the matching function of LoggerModel.
 */
module LoggerImpl {
  import opened Levels
  import opened DateTimeHelper
  import opened LoggerModel

  /** What the logger writes to: the files by path, and the two console streams. */
  class Environment {
    var files: map<string, string>
    var stdout: string
    var stderr: string

    constructor (files: map<string, string>)
      ensures this.files == files && stdout == "" && stderr == ""
    {
      this.files := files;
      stdout, stderr := "", "";
    }

    /** Writes text at the end of a file opened in append mode. */
    method WriteFile(path: string, text: string)
      modifies this
      ensures files == AppendFile(old(files), path, text)
      ensures stdout == old(stdout) && stderr == old(stderr)
    {
      files := AppendFile(files, path, text);
    }

    /** `cout << text; cout.flush();` */
    method WriteStdout(text: string)
      modifies this
      ensures stdout == old(stdout) + text
      ensures files == old(files) && stderr == old(stderr)
    {
      stdout := stdout + text;
    }

    /** `cerr << text; cerr.flush();` */
    method WriteStderr(text: string)
      modifies this
      ensures stderr == old(stderr) + text
      ensures files == old(files) && stdout == old(stdout)
    {
      stderr := stderr + text;
    }
  }

  /** The static members of `Logger`. */
  class Statics {
    var initialized: bool
    var logstream: Stream
    var minLogLevel: LogLevel

    /** The static initialisers: not initialized, a null stream, threshold INFO. */
    constructor ()
      ensures !initialized && logstream == NoStream && minLogLevel == INFO
    {
      initialized := false;
      logstream := NoStream;
      minLogLevel := INFO;
    }

    /** `initialize(logPath)`. */
    method Initialize(env: Environment, logPath: string, now: Tm)
      requires !initialized && ValidTm(now)
      modifies this, env
      ensures Snapshot(this, env) == LoggerModel.Initialize(old(Snapshot(this, env)), logPath, now)
    {
      minLogLevel := INFO;
      logstream := Open(logPath);
      env.WriteFile(logPath, StartBanner(GetDateTime(now)));
      initialized := true;
    }

    /** `setLogLevel(level)`. */
    method SetLogLevel(level: LogLevel)
      modifies this
      ensures initialized == old(initialized) && logstream == old(logstream) && minLogLevel == level
    {
      minLogLevel := level;
    }

    /** `finalize()`. */
    method Finalize(env: Environment, now: Tm)
      requires !logstream.Released? && ValidTm(now)
      modifies this, env
      ensures Snapshot(this, env) == LoggerModel.Finalize(old(Snapshot(this, env)), now)
    {
      initialized := false;
      if logstream != NoStream {
        env.WriteFile(logstream.path, EndBanner(GetDateTime(now)));
        // close and delete; the pointer keeps its value
        logstream := Released;
      }
    }
  }

  /** The logger's state and its environment as one value. */
  function Snapshot(st: Statics, env: Environment): World
    reads st, env
  {
    World(st.initialized, st.logstream, st.minLogLevel, env.files, env.stdout, env.stderr)
  }

  /** A Logger object: builds one message and writes it when destroyed. */
  class Logger {
    var logLevel: LogLevel
    var outputMode: OutputMode
    var os: string
    var freeLogging: bool
    /** Whether the destructor has run. */
    ghost var destroyed: bool

    function Value(): Builder
      reads this
    {
      Builder(logLevel, outputMode, os, freeLogging)
    }

    /** `Logger()`; the level and the mode are left indeterminate, as in C++. */
    constructor ()
      ensures Value() == Construct(logLevel, outputMode) && !destroyed
    {
      freeLogging := true;
      os := "";
      destroyed := false;
    }

    /** `log()`. */
    method Log()
      requires !destroyed
      modifies this`logLevel, this`outputMode
      ensures Value() == LogRaw(old(Value()))
    {
      logLevel := INFO;
      outputMode := STD_OUT;
    }

    /** `log(level)`. */
    method LogAt(level: LogLevel, st: Statics, elapsed: string)
      requires !destroyed
      modifies this`logLevel, this`outputMode, this`os, this`freeLogging
      ensures Value() == LoggerModel.LogAt(old(Value()), level, st.initialized, elapsed)
    {
      if AtLeast(level, WARNING) {
        LogAtMode(level, STD_ERR, st, elapsed);
      } else {
        LogAtMode(level, STD_OUT, st, elapsed);
      }
    }

    /** `log(level, mode)`; elapsed is the text of `getTimeElapsed()`. */
    method LogAtMode(level: LogLevel, mode: OutputMode, st: Statics, elapsed: string)
      requires !destroyed
      modifies this`logLevel, this`outputMode, this`os, this`freeLogging
      ensures Value() == LoggerModel.LogAtMode(old(Value()), level, mode, st.initialized, elapsed)
    {
      freeLogging := false;
      if !st.initialized {
        Log();
        return;
      }
      logLevel := level;
      outputMode := mode;
      os := os + Header(elapsed, level);
    }

    /** `<< text` on the stream `log` returns. */
    method Append(text: string)
      requires !destroyed
      modifies this`os
      ensures Value() == LoggerModel.Append(old(Value()), text)
    {
      os := os + text;
    }

    /** `~Logger()`: the one flush of the message, at the end of the builder's life. */
    method Destroy(st: Statics, env: Environment)
      requires !destroyed && Valid(Snapshot(st, env))
      modifies this`os, this`destroyed, env
      ensures destroyed
      ensures Snapshot(st, env) == Flush(old(Value()), old(Snapshot(st, env)))
    {
      if AtLeast(logLevel, st.minLogLevel) {
        if !freeLogging {
          os := os + "\n";
        }
        if st.initialized {
          env.WriteFile(st.logstream.path, os);
        }
        if outputMode == STD_ERR {
          env.WriteStderr(os);
        } else if outputMode == STD_OUT {
          env.WriteStdout(os);
        }
      }
      destroyed := true;
    }
  }

  /**
   * One statement `LOG(...) << text;`: a fresh Logger, one `log` overload, the
   * text, and the destructor at the end of the statement.
   */
  method LogStatement(st: Statics, env: Environment, call: Call, text: string, elapsed: string)
    requires Valid(Snapshot(st, env))
    modifies env
    ensures Snapshot(st, env) == Statement(old(Snapshot(st, env)), call, text, elapsed)
  {
    var logger := new Logger();
    SelectIgnoresIndeterminate(call, st.initialized, elapsed, logger.logLevel, logger.outputMode, INFO, STD_OUT);
    match call {
      case Raw => logger.Log();
      case Leveled(level) => logger.LogAt(level, st, elapsed);
      case LeveledTo(level, mode) => logger.LogAtMode(level, mode, st, elapsed);
    }
    logger.Append(text);
    logger.Destroy(st, env);
  }

  /** The two DEBUG messages of Demo.cpp. */
  const DebugDropped := "Debug message. This should not be printed since default minimum logging level is at INFO."
  const DebugShown := "Debug message. This should be printed since default minimum logging level is now at DEBUG."

  /** The logger is initialized on log.txt with the given threshold. */
  predicate OnDemoFile(st: Statics, env: Environment, threshold: LogLevel)
    reads st, env
  {
    st.initialized && st.logstream == Open("log.txt") && st.minLogLevel == threshold && "log.txt" in env.files
  }

  /** Demo.cpp:5-8: the logger's statics at program start, and initialize on log.txt. */
  method DemoStart(files: map<string, string>, start: Tm) returns (st: Statics, env: Environment)
    requires ValidTm(start)
    ensures fresh(st) && fresh(env) && OnDemoFile(st, env, INFO)
    ensures env.files == files["log.txt" := FileText(files, "log.txt") + StartBanner(GetDateTime(start))]
    ensures env.stdout == "" && env.stderr == ""
  {
    st := new Statics();
    env := new Environment(files);
    st.Initialize(env, "log.txt", start);
  }

  /** Demo.cpp:10-12: two free-form messages. */
  method DemoFreeText(st: Statics, env: Environment)
    requires OnDemoFile(st, env, INFO)
    modifies env
    ensures OnDemoFile(st, env, INFO)
    ensures env.files == old(env.files)["log.txt" := old(env.files["log.txt"]) + "Hello World! " + "Write to log freely....\n\n"]
    ensures env.stdout == old(env.stdout) + "Hello World! " + "Write to log freely....\n\n"
    ensures env.stderr == old(env.stderr)
  {
    ghost var w := Snapshot(st, env);
    RawStatementWrites(w, "Hello World! ", "");
    LogStatement(st, env, Raw, "Hello World! ", "");
    w := Snapshot(st, env);
    RawStatementWrites(w, "Write to log freely....\n\n", "");
    LogStatement(st, env, Raw, "Write to log freely....\n\n", ""); // the two endl are part of the text
  }

  /** Demo.cpp:14-25: a DEBUG message dropped at the default threshold, then one written after setLogLevel(DEBUG). */
  method DemoDebug(st: Statics, env: Environment, t1: string, t2: string)
    requires OnDemoFile(st, env, INFO)
    modifies st, env
    ensures OnDemoFile(st, env, DEBUG)
    ensures env.files == old(env.files)["log.txt" := old(env.files["log.txt"]) + (Header(t2, DEBUG) + DebugShown + "\n")]
    ensures env.stdout == old(env.stdout) + (Header(t2, DEBUG) + DebugShown + "\n")
    ensures env.stderr == old(env.stderr)
  {
    ghost var w := Snapshot(st, env);
    LeveledWrittenIffAtThreshold(w, Leveled(DEBUG), DebugDropped, t1);
    LogStatement(st, env, Leveled(DEBUG), DebugDropped, t1);
    assert Snapshot(st, env) == w;
    st.SetLogLevel(DEBUG);
    w := Snapshot(st, env);
    LeveledStatementWrites(w, DEBUG, DebugShown, t2);
    LogStatement(st, env, Leveled(DEBUG), DebugShown, t2);
  }

  /** Demo.cpp:27-28: an INFO message, to stdout. */
  method DemoInfo(st: Statics, env: Environment, t3: string)
    requires OnDemoFile(st, env, DEBUG)
    modifies env
    ensures OnDemoFile(st, env, DEBUG)
    ensures env.files == old(env.files)["log.txt" := old(env.files["log.txt"]) + (Header(t3, INFO) + "Normal message." + "\n")]
    ensures env.stdout == old(env.stdout) + (Header(t3, INFO) + "Normal message." + "\n")
    ensures env.stderr == old(env.stderr)
  {
    LeveledStatementWrites(Snapshot(st, env), INFO, "Normal message.", t3);
    LogStatement(st, env, Leveled(INFO), "Normal message.", t3);
  }

  /** Demo.cpp:30-34: a WARNING and an ERROR message, to stderr. */
  method DemoProblems(st: Statics, env: Environment, t4: string, t5: string)
    requires OnDemoFile(st, env, DEBUG)
    modifies env
    ensures OnDemoFile(st, env, DEBUG)
    ensures env.files == old(env.files)["log.txt" := old(env.files["log.txt"]) +
      (Header(t4, WARNING) + "Warning message." + "\n") + (Header(t5, ERROR) + "Error message." + "\n")]
    ensures env.stdout == old(env.stdout)
    ensures env.stderr == old(env.stderr) +
      (Header(t4, WARNING) + "Warning message." + "\n") + (Header(t5, ERROR) + "Error message." + "\n")
  {
    ghost var w := Snapshot(st, env);
    LeveledStatementWrites(w, WARNING, "Warning message.", t4);
    LogStatement(st, env, Leveled(WARNING), "Warning message.", t4);
    w := Snapshot(st, env);
    LeveledStatementWrites(w, ERROR, "Error message.", t5);
    LogStatement(st, env, Leveled(ERROR), "Error message.", t5);
  }

  /** Demo.cpp:36-38: finalize, which writes the END banner. */
  method DemoFinish(st: Statics, env: Environment, end: Tm)
    requires OnDemoFile(st, env, DEBUG) && ValidTm(end)
    modifies st, env
    ensures env.files == old(env.files)["log.txt" := old(env.files["log.txt"]) + EndBanner(GetDateTime(end))]
    ensures env.stdout == old(env.stdout) && env.stderr == old(env.stderr)
    ensures !st.initialized && st.logstream == Released && st.minLogLevel == DEBUG
  {
    st.Finalize(env, end);
  }

  /**
   * The program of Demo.cpp, over the files that exist before it starts:
   * what ends up in log.txt, on stdout and on stderr.  The first DEBUG message
   * is dropped by the default threshold; t1 to t5 are the elapsed times of the
   * five leveled messages.
   */
  method Demo(files: map<string, string>, start: Tm, end: Tm, t1: string, t2: string, t3: string, t4: string, t5: string)
    returns (log: string, out: string, err: string)
    requires ValidTm(start) && ValidTm(end)
    ensures log ==
      FileText(files, "log.txt") + StartBanner(GetDateTime(start)) +
      "Hello World! " + "Write to log freely....\n\n" +
      (Header(t2, DEBUG) + DebugShown + "\n") +
      (Header(t3, INFO) + "Normal message." + "\n") +
      (Header(t4, WARNING) + "Warning message." + "\n") +
      (Header(t5, ERROR) + "Error message." + "\n") +
      EndBanner(GetDateTime(end))
    ensures out ==
      "Hello World! " + "Write to log freely....\n\n" +
      (Header(t2, DEBUG) + DebugShown + "\n") +
      (Header(t3, INFO) + "Normal message." + "\n")
    ensures err ==
      (Header(t4, WARNING) + "Warning message." + "\n") +
      (Header(t5, ERROR) + "Error message." + "\n")
  {
    var st, env := DemoStart(files, start);
    ghost var file := FileText(files, "log.txt") + StartBanner(GetDateTime(start));
    assert env.files["log.txt"] == file;

    DemoFreeText(st, env);
    file := file + "Hello World! " + "Write to log freely....\n\n";
    ghost var stdout := "Hello World! " + "Write to log freely....\n\n";
    assert env.files["log.txt"] == file && env.stdout == stdout && env.stderr == "";

    DemoDebug(st, env, t1, t2);
    file := file + (Header(t2, DEBUG) + DebugShown + "\n");
    stdout := stdout + (Header(t2, DEBUG) + DebugShown + "\n");
    assert env.files["log.txt"] == file && env.stdout == stdout && env.stderr == "";

    DemoInfo(st, env, t3);
    file := file + (Header(t3, INFO) + "Normal message." + "\n");
    stdout := stdout + (Header(t3, INFO) + "Normal message." + "\n");
    assert env.files["log.txt"] == file && env.stdout == stdout && env.stderr == "";

    DemoProblems(st, env, t4, t5);
    file := file + (Header(t4, WARNING) + "Warning message." + "\n") + (Header(t5, ERROR) + "Error message." + "\n");
    ghost var warning := Header(t4, WARNING) + "Warning message." + "\n";
    assert "" + warning == warning;
    assert env.files["log.txt"] == file && env.stdout == stdout;
    assert env.stderr == warning + (Header(t5, ERROR) + "Error message." + "\n");

    DemoFinish(st, env, end);
    log, out, err := env.files["log.txt"], env.stdout, env.stderr;
  }
}
