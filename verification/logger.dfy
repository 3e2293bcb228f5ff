/** The logger object and its one-time initialisation: the level switch,
    the process-wide zerolog conventions, the console formatter, and the
    rotating file writer, composed into one fan-out sink. */
module Logger {
  import opened Wrappers
  import opened GoStrings
  import opened Levels
  import opened Console
  import opened Caller
  import opened Rotation

  /** The display format of record timestamps (Go's reference layout). */
  const LoggingTimeFormat: string := "02-Jan-2006 15:04:05"

  /** The settings ModuleInit reads: the logger section and the
      application's name. */
  datatype Configurations = Configurations(
    logFilePath: string, logFileName: string, logLevel: string, applicationName: string)

  /** The zerolog package variables ModuleInit overwrites; the caller hook
      is the annotation function of the object that installed it. */
  datatype Conventions = Conventions(
    timeFieldFormat: string, messageFieldName: string, levelFieldName: string,
    timestampFieldName: string, callerHook: Object)

  /** The outcomes of the external calls fileLogger makes: os.Stat on the
      directory, os.MkdirAll when the directory is missing, and the
      construction of the rotating writer by rotatelogs.New, which fails for
      instance when the pattern is not a valid strftime pattern. */
  datatype StatOutcome = Exists | NotExist | StatFailed
  datatype FileEnv = FileEnv(stat: StatOutcome, mkdirSucceeds: bool, rotateSucceeds: bool)

  /** The writers of the fan-out sink; NilWriter is the nil io.Writer
      fileLogger returns on failure. */
  datatype Writer =
    | ConsoleOut(formatter: ConsoleFormatter, timeFormat: string)
    | RotatingFile(rotation: RotationWriter)
    | NilWriter

  /** The logger: records go to every writer of the sink, each with a
      timestamp and a caller annotation. */
  datatype LoggerHandle = LoggerHandle(sink: seq<Writer>)

  /** What fileLogger yields for a directory, a base name and the outcomes
      of its external calls: the nil writer exactly when the missing
      directory cannot be created or the rotating writer cannot be built;
      otherwise a writer rotating every hour, keeping files for 183960 hours,
      over a pattern that starts with the directory and whose last element
      is the directory's last segment fused with the file name. */
  function FileWriterFor(directory: string, baseName: string, env: FileEnv): (r: Writer)
    ensures r == NilWriter <==> (env.stat == NotExist && !env.mkdirSucceeds) || !env.rotateSucceeds
    ensures r != NilWriter ==> r.RotatingFile? && r.rotation.rotationTime == Hour && r.rotation.maxAge == 183960 * Hour
    ensures r != NilWriter ==> directory <= r.rotation.pattern
    ensures r != NilWriter ==> |r.rotation.pattern| == |directory| + |LogFileName(baseName)|
    ensures r != NilWriter && '/' !in baseName ==>
      Base(r.rotation.pattern) == LastSegment(directory) + LogFileName(baseName)
  {
    if (env.stat != NotExist || env.mkdirSucceeds) && env.rotateSucceeds
    then RotatingFile(RotationWriter(LogFilePattern(directory, baseName), RotationTime, MaxAge))
    else NilWriter
  }

  /** The zerolog package variables: one per process, shared by every
      Object. None means not set by ModuleInit: zerolog's own default. */
  class Zerolog {
    /** The global level zerolog.SetGlobalLevel sets. */
    ghost var globalLevel: Option<Level>
    /** The field names, the time format and the caller hook. */
    ghost var conventions: Option<Conventions>

    constructor ()
      ensures globalLevel == None && conventions == None
    {
      globalLevel, conventions := None, None;
    }
  }

  class Object {
    var logFilePath: string
    var logFileName: string
    var logLevel: string
    var config: Option<Configurations>
    /** The Logger field; None is Go's zero value, a logger with no writer. */
    var logger: Option<LoggerHandle>
    /** The directories os.MkdirAll was asked to create, in order. */
    ghost var mkdirRequests: seq<string>

    /** The zero value of the Go struct. */
    constructor ()
      ensures logFilePath == "" && logFileName == "" && logLevel == ""
      ensures config == None && logger == None
      ensures mkdirRequests == []
    {
      logFilePath, logFileName, logLevel := "", "", "";
      config, logger := None, None;
      mkdirRequests := [];
    }

    /** Copies the settings into the object, then accepts the level name
      exactly when its upper-case form is DEBUG, INFO, WARNING or ERROR.
      On success it sets zerolog's global level and conventions, replacing
      whatever another Object installed there, builds a fresh console
      formatter and the file writer, and installs a logger writing to both;
      otherwise nothing else changes. */
    method ModuleInit(cfg: Configurations, env: FileEnv, zerolog: Zerolog) returns (ok: bool)
      modifies this, zerolog
      ensures config == Some(cfg)
      ensures logFilePath == cfg.logFilePath && logFileName == cfg.logFileName && logLevel == cfg.logLevel
      ensures ok <==> SelectLevel(Upper(cfg.logLevel)).Some?
      ensures ok ==> zerolog.globalLevel == SelectLevel(Upper(cfg.logLevel))
      ensures ok ==> zerolog.conventions == Some(Conventions(LoggingTimeFormat, "Message", "LoggingLevel", "LoggingTimestamp", this))
      ensures ok ==> logger.Some? && |logger.value.sink| == 2
      ensures ok ==> logger.value.sink[0].ConsoleOut? && fresh(logger.value.sink[0].formatter)
      ensures ok ==> logger.value.sink[0].formatter.currentLogLevel == ""
      ensures ok ==> logger.value.sink[0].timeFormat == LoggingTimeFormat
      ensures ok ==> logger.value.sink[1] == FileWriterFor(cfg.logFilePath, cfg.logFileName, env)
      ensures ok ==> mkdirRequests == old(mkdirRequests) + (if env.stat == NotExist then [cfg.logFilePath] else [])
      ensures !ok ==> zerolog.globalLevel == old(zerolog.globalLevel) && zerolog.conventions == old(zerolog.conventions)
      ensures !ok ==> logger == old(logger) && mkdirRequests == old(mkdirRequests)
    {
      config := Some(cfg);
      logFilePath := cfg.logFilePath;
      logFileName := cfg.logFileName;
      logLevel := cfg.logLevel;

      var selected := SelectLevel(Upper(logLevel));
      if selected.None? {
        return false;
      }
      zerolog.globalLevel := selected;

      zerolog.conventions := Some(Conventions(LoggingTimeFormat, "Message", "LoggingLevel", "LoggingTimestamp", this));

      var console := new ConsoleFormatter();
      var file := FileLogger(env);
      logger := Some(LoggerHandle([ConsoleOut(console, LoggingTimeFormat), file]));
      ok := true;
    }

    /** Creates the directory when os.Stat reports it missing; gives the
      nil writer when that fails or when the rotating writer cannot be
      built, otherwise a writer rotating hourly over the pattern
      directory + file name + ".log.%Y-%m-%d_%H" and keeping files for
      MaxAge. */
    method FileLogger(env: FileEnv) returns (w: Writer)
      modifies this`mkdirRequests
      ensures mkdirRequests == old(mkdirRequests) + (if env.stat == NotExist then [logFilePath] else [])
      ensures w == FileWriterFor(logFilePath, logFileName, env)
    {
      if env.stat == NotExist {
        mkdirRequests := mkdirRequests + [logFilePath];
        if !env.mkdirSucceeds {
          return NilWriter;
        }
      }
      var pattern := logFilePath + (logFileName + ".log." + TimePattern);
      if !env.rotateSucceeds {
        return NilWriter;
      }
      w := RotatingFile(RotationWriter(pattern, RotationTime, MaxAge));
    }

    /** The caller hook: it reads the application name from this object's
      configuration at the time of the call. */
    function CallerMarshal(file: string, line: int): (r: string)
      reads this
      requires config.Some?
      ensures ParseCaller(config.value.applicationName, r) == Some((ShortName(file), line))
    {
      CallerAnnotation(config.value.applicationName, file, line)
    }
  }

  /** An unsupported level: ModuleInit fails and leaves everything but the
      copied settings as they were; no directory is created. */
  method RejectedLevelScenario() {
    var zerolog := new Zerolog();
    var o := new Object();
    var ok := o.ModuleInit(Configurations("/tmp/app/", "svc", "TRACE", "svc1"), FileEnv(NotExist, true, true), zerolog);
    assert Upper("TRACE")[0] == 'T';
    assert !ok;
    assert o.logLevel == "TRACE" && o.logger == None && o.mkdirRequests == [];
    assert zerolog.globalLevel == None && zerolog.conventions == None;
  }

  /** A supported level in mixed case: ModuleInit selects its level,
      creates the missing directory and installs the file writer. */
  method AcceptedLevelScenario() {
    AcceptedSpellings("Info", Info);
    assert CaseVariant("Info", "INFO");
    assert Upper("Info") == "INFO";
    var cfg := Configurations("/tmp/app/", "svc", "Info", "svc1");
    var env := FileEnv(NotExist, true, true);
    var zerolog := new Zerolog();
    var o := new Object();
    var ok := o.ModuleInit(cfg, env, zerolog);
    assert ok && zerolog.globalLevel == Some(Info);
    assert o.mkdirRequests == ["/tmp/app/"];
    assert o.logger.value.sink[1] == RotatingFile(RotationWriter("/tmp/app/" + LogFileName("svc"), Hour, MaxAge));
  }

  /** zerolog's state is shared: after a second Object is initialised, the
      global level is the second one's and the caller hook is the second
      Object's, which annotates with the second application's name. */
  method SecondObjectScenario() {
    var cfg1 := Configurations("/tmp/a/", "a", "INFO", "app1");
    var cfg2 := Configurations("/tmp/b/", "b", "ERROR", "app2");
    var env := FileEnv(Exists, true, true);
    assert Upper(cfg1.logLevel) == "INFO" && SelectLevel("INFO") == Some(Info);
    assert Upper(cfg2.logLevel) == "ERROR" && SelectLevel("ERROR") == Some(Error);
    var zerolog := new Zerolog();
    var first := new Object();
    var ok1 := first.ModuleInit(cfg1, env, zerolog);
    assert ok1 && zerolog.globalLevel == Some(Info);
    var second := new Object();
    var ok2 := second.ModuleInit(cfg2, env, zerolog);
    assert ok2 && zerolog.globalLevel == Some(Error);
    assert zerolog.conventions.value.callerHook == second && second.config == Some(cfg2);
  }
}
