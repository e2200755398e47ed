/**
 * A model of the named-logger registry of logger/logger.go.
 *
 * The package keeps two process-wide tables, `logInstances` (name to logger)
 * and `fileHandles` (name to the file a logger writes to), and a once-only
 * close flag. Here they are the fields of the class `Registry`. Opening a log
 * file and reading the clock are outside the model: the outcome of the open
 * and the formatted timestamp are parameters.
 */
module Logger {
  import opened Options

  // ---------------------------------------------------------------------
  // Levels and the text of a log line
  // ---------------------------------------------------------------------

  /** The logrus levels, most severe first. */
  datatype Level = PanicLevel | FatalLevel | ErrorLevel | WarnLevel | InfoLevel | DebugLevel | TraceLevel

  /** The lower-case name logrus prints for a level. */
  function LevelString(l: Level): string
  {
    match l
    case PanicLevel => "panic"
    case FatalLevel => "fatal"
    case ErrorLevel => "error"
    case WarnLevel => "warning"
    case InfoLevel => "info"
    case DebugLevel => "debug"
    case TraceLevel => "trace"
  }

  /** Upper-cases one ASCII letter and leaves every other character alone. */
  function UpperChar(c: char): char
  {
    if 'a' <= c <= 'z' then (c as int - 32) as char else c
  }

  /** `strings.ToUpper`, restricted to ASCII case mapping. */
  function ToUpper(s: string): (r: string)
    ensures |r| == |s|
    ensures forall i :: 0 <= i < |s| ==> r[i] == UpperChar(s[i])
  {
    if s == [] then [] else [UpperChar(s[0])] + ToUpper(s[1..])
  }

  const ESC: char := 27 as char

  /** The ANSI sequence that restores the default colour. */
  function Reset(): string
  {
    [ESC] + "[0m"
  }

  /** `word` printed in the ANSI foreground colour `code`. */
  function Coloured(code: string, word: string): string
  {
    [ESC] + "[" + code + "m" + word + Reset()
  }

  /** The three level names that `colorizeLevel` paints. */
  const ColouredNames: set<string> := {"info", "warning", "error"}

  /**
   * `colorizeLevel`: green INFO, yellow WARN, red ERROR, and the upper-cased
   * name for everything else.
   */
  function ColorizeLevel(level: string): (r: string)
    ensures level !in ColouredNames <==> r == ToUpper(level)
    ensures level in ColouredNames ==> |r| > 9 && r[0] == ESC && r[|r| - 4..] == Reset()
    ensures level == "info" ==> r == Coloured("32", "INFO")
    ensures level == "warning" ==> r == Coloured("33", "WARN")
    ensures level == "error" ==> r == Coloured("31", "ERROR")
  {
    match level
    case "info" => Coloured("32", "INFO")
    case "warning" => Coloured("33", "WARN")
    case "error" => Coloured("31", "ERROR")
    case _ => ToUpper(level)
  }

  /** The two formatters the registry installs. */
  datatype FormatterKind = PlainFormatter | ColorFormatter

  /** What a formatter receives from logrus: the entry's level and message. */
  datatype Entry = Entry(level: Level, message: string)

  /** The level text a formatter puts between the second pair of brackets. */
  function LevelLabel(f: FormatterKind, l: Level): string
  {
    match f
    case PlainFormatter => ToUpper(LevelString(l))
    case ColorFormatter => ColorizeLevel(LevelString(l))
  }

  /** The `Format` methods of `plainFormatter` and `colorFormatter`. */
  function Format(f: FormatterKind, timestamp: string, e: Entry): string
  {
    "[" + timestamp + "][" + LevelLabel(f, e.level) + "]" + e.message + "\n"
  }

  /** The plain and the colour line differ exactly for info, warning and error. */
  lemma FormattersDifferOnlyWhenColoured(timestamp: string, e: Entry)
    ensures Format(PlainFormatter, timestamp, e) == Format(ColorFormatter, timestamp, e)
            <==> e.level !in {InfoLevel, WarnLevel, ErrorLevel}
  {
    var p, c := LevelLabel(PlainFormatter, e.level), LevelLabel(ColorFormatter, e.level);
    var pre, post := "[" + timestamp + "][", "]" + e.message + "\n";
    assert Format(PlainFormatter, timestamp, e) == pre + p + post;
    assert Format(ColorFormatter, timestamp, e) == pre + c + post;
    if pre + p + post == pre + c + post {
      assert |p| == |c|;
      forall i | 0 <= i < |p| ensures p[i] == c[i] {
        assert (pre + p + post)[|pre| + i] == p[i];
        assert (pre + c + post)[|pre| + i] == c[i];
      }
      assert p == c;
    }
  }

  // ---------------------------------------------------------------------
  // Reading a line back (the inverse of Format)
  // ---------------------------------------------------------------------

  /** The three fields of a formatted line. */
  datatype LineParts = LineParts(timestamp: string, levelText: string, message: string)

  /** Position of the first `c` in `s`, or `|s|` when there is none. */
  function IndexOf(s: string, c: char): (r: nat)
    ensures r <= |s|
    ensures r < |s| ==> s[r] == c
    ensures forall i :: 0 <= i < r ==> s[i] != c
  {
    if s == [] then 0 else if s[0] == c then 0 else 1 + IndexOf(s[1..], c)
  }

  /**
   * Splits `[ts][L]msg\n` at the first `]` and at the next `]` after the
   * second `[`. The message may contain any character.
   */
  function ParseLine(line: string): Option<LineParts>
  {
    if |line| < 2 || line[0] != '[' || line[|line| - 1] != '\n' then None
    else ParseBody(line[1..|line| - 1])
  }

  /** The part of a line between its opening `[` and its final newline. */
  function ParseBody(body: string): Option<LineParts>
  {
    var i := IndexOf(body, ']');
    if i + 1 >= |body| || body[i + 1] != '[' then None
    else ParseRest(body[..i], body[i + 2..])
  }

  /** The part of a line after the second `[`. */
  function ParseRest(timestamp: string, rest: string): Option<LineParts>
  {
    var j := IndexOf(rest, ']');
    if j == |rest| then None else Some(LineParts(timestamp, rest[..j], rest[j + 1..]))
  }

  /** Upper-casing adds no closing bracket. */
  lemma ToUpperNoBracket(s: string)
    requires ']' !in s
    ensures ']' !in ToUpper(s)
  {
    var r := ToUpper(s);
    forall i | 0 <= i < |r| ensures r[i] != ']' {
      assert r[i] == UpperChar(s[i]);
    }
  }

  /** A coloured word has no closing bracket when its code and word have none. */
  lemma ColouredNoBracket(code: string, word: string)
    requires ']' !in code && ']' !in word
    ensures ']' !in Coloured(code, word)
  {
  }

  /** No level label contains a closing bracket. */
  lemma LabelHasNoBracket(f: FormatterKind, l: Level)
    ensures ']' !in LevelLabel(f, l)
  {
    var name := LevelString(l);
    assert ']' !in name;
    if f == PlainFormatter || name !in ColouredNames {
      ToUpperNoBracket(name);
    } else if l == InfoLevel {
      ColouredNoBracket("32", "INFO");
    } else if l == WarnLevel {
      ColouredNoBracket("33", "WARN");
    } else {
      assert l == ErrorLevel;
      ColouredNoBracket("31", "ERROR");
    }
  }

  /** `IndexOf` finds the separator placed right after a separator-free prefix. */
  lemma IndexOfAfter(a: string, c: char, b: string)
    requires c !in a
    ensures IndexOf(a + [c] + b, c) == |a|
  {
    var s := a + [c] + b;
    assert s[|a|] == c;
    forall i | 0 <= i < |a| ensures s[i] != c {
      assert s[i] == a[i];
    }
  }

  /** The part after the second `[` splits at its first `]`. */
  lemma ParseRestJoin(timestamp: string, levelText: string, message: string)
    requires ']' !in levelText
    ensures ParseRest(timestamp, levelText + [']'] + message) == Some(LineParts(timestamp, levelText, message))
  {
    var rest := levelText + [']'] + message;
    IndexOfAfter(levelText, ']', message);
    assert rest[..|levelText|] == levelText;
    assert rest[|levelText| + 1..] == message;
  }

  /** The body of a line splits at its first `]`, which ends the timestamp. */
  lemma ParseBodyJoin(timestamp: string, levelText: string, message: string)
    requires ']' !in timestamp && ']' !in levelText
    ensures ParseBody(timestamp + [']'] + (['['] + (levelText + [']'] + message)))
            == Some(LineParts(timestamp, levelText, message))
  {
    var rest := levelText + [']'] + message;
    var tail := ['['] + rest;
    var body := timestamp + [']'] + tail;
    IndexOfAfter(timestamp, ']', tail);
    assert body[..|timestamp|] == timestamp;
    assert body[|timestamp| + 1] == '[';
    assert body[|timestamp| + 2..] == rest;
    ParseRestJoin(timestamp, levelText, message);
  }

  /** Splitting a bracketed line gives back its three parts. */
  lemma ParseJoin(timestamp: string, levelText: string, message: string)
    requires ']' !in timestamp && ']' !in levelText
    ensures ParseLine("[" + timestamp + "][" + levelText + "]" + message + "\n")
            == Some(LineParts(timestamp, levelText, message))
  {
    var line := "[" + timestamp + "][" + levelText + "]" + message + "\n";
    var body := timestamp + [']'] + (['['] + (levelText + [']'] + message));
    assert line == ['['] + body + ['\n'];
    assert line[1..|line| - 1] == body;
    ParseBodyJoin(timestamp, levelText, message);
  }

  /**
   * Every line either formatter writes can be split back into its timestamp,
   * its level label and its message, provided the timestamp has no `]`
   * (the one the registry uses, "2006-01-02 15:04:05", has none).
   */
  lemma ParseFormat(f: FormatterKind, timestamp: string, e: Entry)
    requires ']' !in timestamp
    ensures ParseLine(Format(f, timestamp, e)) == Some(LineParts(timestamp, LevelLabel(f, e.level), e.message))
  {
    LabelHasNoBracket(f, e.level);
    ParseJoin(timestamp, LevelLabel(f, e.level), e.message);
  }

  // ---------------------------------------------------------------------
  // Loggers, their destinations and the registry's state
  // ---------------------------------------------------------------------

  /** An open log file: the path it was opened at and its descriptor. */
  datatype FileHandle = FileHandle(path: string, fd: nat)

  /** What `os.OpenFile` gives back when the destination is a path. */
  datatype OpenOutcome = Opened(fd: nat) | OpenFailed

  /** Where a logger writes; `StdoutAndFile` is `io.MultiWriter(os.Stdout, file)`. */
  datatype Output = Stdout | Stderr | ToFile(file: FileHandle) | StdoutAndFile(file: FileHandle)
  {
    predicate HasFile() { ToFile? || StdoutAndFile? }
  }

  /** The configuration the registry gives a logger it creates. */
  datatype Logger = Logger(level: Level, output: Output, formatter: FormatterKind)

  /** `loggerConfig`. */
  datatype LoggerConfig = LoggerConfig(name: string, level: Level, dest: string, alsoToStdout: bool)

  /** A destination other than the two standard streams names a file. */
  predicate IsFilePath(dest: string)
  {
    dest != "stdout" && dest != "stderr"
  }

  /** A new logger and, when a file was opened for it, that file. */
  datatype Setup = Setup(logger: Logger, file: Option<FileHandle>)

  /** The choice of output and formatter `initLogger` makes from a destination. */
  function Configure(cfg: LoggerConfig, open: OpenOutcome): (s: Setup)
    ensures s.logger.level == cfg.level
    ensures cfg.dest == "stdout" ==> s.logger.output == Stdout && s.logger.formatter == ColorFormatter
    ensures cfg.dest == "stderr" ==> s.logger.output == Stderr && s.logger.formatter == ColorFormatter
    ensures IsFilePath(cfg.dest) && open.OpenFailed? ==>
              s.logger.output == Stdout && s.logger.formatter == ColorFormatter
    ensures IsFilePath(cfg.dest) && open.Opened? ==>
              var f := FileHandle(cfg.dest, open.fd);
              && s.logger.formatter == PlainFormatter
              && s.logger.output == (if cfg.alsoToStdout then StdoutAndFile(f) else ToFile(f))
    ensures s.file.Some? <==> IsFilePath(cfg.dest) && open.Opened?
    ensures s.file.Some? <==> s.logger.output.HasFile()
    ensures s.file.Some? ==> s.logger.output.file == s.file.value && s.file.value.path == cfg.dest
  {
    if !IsFilePath(cfg.dest) then
      Setup(Logger(cfg.level, if cfg.dest == "stderr" then Stderr else Stdout, ColorFormatter), None)
    else
      match open
      case OpenFailed => Setup(Logger(cfg.level, Stdout, ColorFormatter), None)
      case Opened(fd) =>
        var f := FileHandle(cfg.dest, fd);
        Setup(Logger(cfg.level, if cfg.alsoToStdout then StdoutAndFile(f) else ToFile(f), PlainFormatter), Some(f))
  }

  /** The two package tables and the close-once flag, as a value. */
  datatype RegistryState = RegistryState(
    instances: map<string, Logger>,
    files: map<string, FileHandle>,
    closeDone: bool)

  /**
   * The tables agree: a name has a file handle exactly when its logger
   * writes to a file, and it is that logger's file.
   */
  ghost predicate Consistent(st: RegistryState)
  {
    && (forall n :: n in st.files ==> n in st.instances && st.instances[n].output.HasFile()
                                      && st.instances[n].output.file == st.files[n])
    && (forall n :: n in st.instances && st.instances[n].output.HasFile() ==> n in st.files)
  }

  /** `getConfigedLogger` on the state: return the cached logger, or create and register one. */
  function Acquire(st: RegistryState, cfg: LoggerConfig, open: OpenOutcome): (r: (RegistryState, Logger))
    ensures cfg.name in st.instances ==> r == (st, st.instances[cfg.name])
    ensures cfg.name !in st.instances ==>
              && r.1 == Configure(cfg, open).logger
              && r.0.instances == st.instances[cfg.name := r.1]
              && (Configure(cfg, open).file.Some? ==>
                    r.0.files == st.files[cfg.name := Configure(cfg, open).file.value])
              && (Configure(cfg, open).file.None? ==> r.0.files == st.files)
    ensures cfg.name in r.0.instances && r.0.instances[cfg.name] == r.1
    ensures r.0.closeDone == st.closeDone
    ensures forall n :: n != cfg.name ==> (n in r.0.instances <==> n in st.instances)
    ensures forall n :: n != cfg.name && n in st.instances ==> r.0.instances[n] == st.instances[n]
    ensures forall n :: n != cfg.name ==> (n in r.0.files <==> n in st.files)
    ensures forall n :: n != cfg.name && n in st.files ==> r.0.files[n] == st.files[n]
    ensures Consistent(st) ==> Consistent(r.0)
  {
    if cfg.name in st.instances then (st, st.instances[cfg.name])
    else
      var s := Configure(cfg, open);
      var files := if s.file.Some? then st.files[cfg.name := s.file.value] else st.files;
      (RegistryState(st.instances[cfg.name := s.logger], files, st.closeDone), s.logger)
  }

  /** `CloseAllLoggers` on the state: the first call empties both tables, later calls do nothing. */
  function CloseAll(st: RegistryState): (r: RegistryState)
    ensures !st.closeDone ==> r.instances == map[] && r.files == map[]
    ensures st.closeDone ==> r == st
    ensures r.closeDone
    ensures Consistent(r) || !Consistent(st)
  {
    if st.closeDone then st else RegistryState(map[], map[], true)
  }

  /** The configuration `GetLogger` passes. */
  function StdoutConfig(name: string): LoggerConfig
  {
    LoggerConfig(name, DebugLevel, "stdout", false)
  }

  /** The configuration `GetFileLogger` passes. */
  function FileConfig(name: string, filePath: string, alsoToStdout: bool): LoggerConfig
  {
    LoggerConfig(name, DebugLevel, filePath, alsoToStdout)
  }

  /**
   * Asking for a file logger under a name `GetLogger` already registered
   * returns that stdout logger, ignores the path and opens no file.
   */
  lemma FileLoggerAfterLogger(st: RegistryState, name: string, filePath: string, alsoToStdout: bool,
                              open1: OpenOutcome, open2: OpenOutcome)
    ensures var (s1, l1) := Acquire(st, StdoutConfig(name), open1);
            var (s2, l2) := Acquire(s1, FileConfig(name, filePath, alsoToStdout), open2);
            && l2 == l1 && s2 == s1
            && (name !in st.instances ==>
                  l1 == Logger(DebugLevel, Stdout, ColorFormatter) && s2.files == st.files)
  {
  }

  /** The public entry points, replayed one after another. */
  datatype Call = Get(cfg: LoggerConfig, open: OpenOutcome) | CloseAllCall

  function Apply(st: RegistryState, c: Call): RegistryState
  {
    match c
    case Get(cfg, open) => Acquire(st, cfg, open).0
    case CloseAllCall => CloseAll(st)
  }

  function Run(st: RegistryState, calls: seq<Call>): RegistryState
    decreases |calls|
  {
    if calls == [] then st else Run(Apply(st, calls[0]), calls[1..])
  }

  /** Once closed, the registry stays closed whatever is called afterwards. */
  lemma {:induction false} ClosedStaysClosed(st: RegistryState, calls: seq<Call>)
    requires st.closeDone
    ensures Run(st, calls).closeDone
    decreases |calls|
  {
    if calls != [] {
      ClosedStaysClosed(Apply(st, calls[0]), calls[1..]);
    }
  }

  /**
   * Every call of `CloseAllLoggers` after the first changes nothing, even
   * when new loggers were registered in between.
   */
  lemma LaterCloseChangesNothing(st: RegistryState, calls: seq<Call>)
    ensures var s := Run(CloseAll(st), calls); CloseAll(s) == s
  {
    ClosedStaysClosed(CloseAll(st), calls);
  }

  /** Every reachable state keeps the two tables consistent. */
  lemma {:induction false} RunConsistent(st: RegistryState, calls: seq<Call>)
    requires Consistent(st)
    ensures Consistent(Run(st, calls))
    decreases |calls|
  {
    if calls != [] {
      RunConsistent(Apply(st, calls[0]), calls[1..]);
    }
  }

  /** The names of a sequence of closed (name, file) pairs. */
  function Names(closed: seq<(string, FileHandle)>): set<string>
  {
    set i | 0 <= i < |closed| :: closed[i].0
  }

  lemma NamesAppend(closed: seq<(string, FileHandle)>, x: (string, FileHandle))
    ensures Names(closed + [x]) == Names(closed) + {x.0}
  {
    var c' := closed + [x];
    forall n | n in Names(c') ensures n in Names(closed) + {x.0} {
      var i :| 0 <= i < |c'| && c'[i].0 == n;
      if i < |closed| { assert c'[i] == closed[i]; }
    }
    forall n | n in Names(closed) ensures n in Names(c') {
      var i :| 0 <= i < |closed| && closed[i].0 == n;
      assert c'[i] == closed[i];
    }
    assert c'[|closed|] == x;
  }

  /** `closed` lists every entry of `files` exactly once. */
  ghost predicate ClosesEachOnce(closed: seq<(string, FileHandle)>, files: map<string, FileHandle>)
  {
    && Names(closed) == files.Keys
    && (forall i :: 0 <= i < |closed| ==> closed[i].0 in files && closed[i].1 == files[closed[i].0])
    && (forall i, j :: 0 <= i < j < |closed| ==> closed[i].0 != closed[j].0)
  }

  /**
   * Part way through the close loop: `closed` lists, once each, the entries
   * of `files` that are no longer in `remaining`.
   */
  ghost predicate ClosingSoFar(closed: seq<(string, FileHandle)>, remaining: map<string, FileHandle>,
                               files: map<string, FileHandle>)
  {
    && remaining.Keys <= files.Keys
    && (forall n :: n in remaining ==> remaining[n] == files[n])
    && Names(closed) !! remaining.Keys
    && Names(closed) + remaining.Keys == files.Keys
    && (forall i :: 0 <= i < |closed| ==> closed[i].0 in files && closed[i].1 == files[closed[i].0])
    && (forall i, j :: 0 <= i < j < |closed| ==> closed[i].0 != closed[j].0)
  }

  /** Closing one more remaining handle keeps `ClosingSoFar`. */
  lemma CloseOneStep(closed: seq<(string, FileHandle)>, remaining: map<string, FileHandle>,
                     files: map<string, FileHandle>, name: string)
    requires ClosingSoFar(closed, remaining, files) && name in remaining
    ensures ClosingSoFar(closed + [(name, remaining[name])], remaining - {name}, files)
    ensures |remaining - {name}| < |remaining|
  {
    assert |(remaining - {name}).Keys| < |remaining.Keys| by {
      assert (remaining - {name}).Keys + {name} == remaining.Keys;
    }
    var c' := closed + [(name, remaining[name])];
    NamesAppend(closed, (name, remaining[name]));
    assert (remaining - {name}).Keys == remaining.Keys - {name};
    forall i | 0 <= i < |c'| ensures c'[i].0 in files && c'[i].1 == files[c'[i].0] {
      if i < |closed| { assert c'[i] == closed[i]; }
    }
    forall i, j | 0 <= i < j < |c'| ensures c'[i].0 != c'[j].0 {
      assert c'[i] == closed[i];
      if j == |closed| {
        assert closed[i].0 in Names(closed);
      } else {
        assert c'[j] == closed[j];
      }
    }
  }

  /** A finished close loop has closed every handle once. */
  lemma ClosingDone(closed: seq<(string, FileHandle)>, files: map<string, FileHandle>)
    requires ClosingSoFar(closed, map[], files)
    ensures ClosesEachOnce(closed, files)
  {
  }

  // ---------------------------------------------------------------------
  // The registry itself
  // ---------------------------------------------------------------------

  class Registry {
    var logInstances: map<string, Logger>
    var fileHandles: map<string, FileHandle>
    /** Stands in for `onceCloseAll`. */
    var closeDone: bool

    ghost function State(): RegistryState
      reads this
    {
      RegistryState(logInstances, fileHandles, closeDone)
    }

    ghost predicate Valid()
      reads this
    {
      Consistent(State())
    }

    /** The package-level initialisation of the two tables. */
    constructor ()
      ensures Valid()
      ensures State() == RegistryState(map[], map[], false)
    {
      logInstances := map[];
      fileHandles := map[];
      closeDone := false;
    }

    /** `initLogger`: build the logger the destination calls for and register it. */
    method InitLogger(cfg: LoggerConfig, open: OpenOutcome) returns (l: Logger)
      requires Valid()
      requires cfg.name !in logInstances
      modifies this
      ensures Valid()
      ensures (State(), l) == Acquire(old(State()), cfg, open)
    {
      var output: Output;
      var formatter: FormatterKind;
      if cfg.dest == "stdout" || cfg.dest == "stderr" {
        output := Stdout;
        if cfg.dest == "stderr" {
          output := Stderr;
        }
        formatter := ColorFormatter;
      } else {
        match open
        case OpenFailed =>
          output := Stdout;
          formatter := ColorFormatter;
        case Opened(fd) =>
          var file := FileHandle(cfg.dest, fd);
          if cfg.alsoToStdout {
            output := StdoutAndFile(file);
          } else {
            output := ToFile(file);
          }
          formatter := PlainFormatter;
          fileHandles := fileHandles[cfg.name := file];
      }
      l := Logger(cfg.level, output, formatter);
      logInstances := logInstances[cfg.name := l];
    }

    /** `getConfigedLogger`: the cached logger for the name, else a new one. */
    method GetConfiguredLogger(cfg: LoggerConfig, open: OpenOutcome) returns (l: Logger)
      requires Valid()
      modifies this
      ensures Valid()
      ensures (State(), l) == Acquire(old(State()), cfg, open)
    {
      if cfg.name in logInstances {
        return logInstances[cfg.name];
      }
      l := InitLogger(cfg, open);
    }

    /** `GetLogger`: a debug-level logger on stdout. No file is opened, so `OpenFailed` is never consulted. */
    method GetLogger(name: string) returns (l: Logger)
      requires Valid()
      modifies this
      ensures Valid()
      ensures (State(), l) == Acquire(old(State()), StdoutConfig(name), OpenFailed)
      ensures name !in old(logInstances) ==> l == Logger(DebugLevel, Stdout, ColorFormatter)
      ensures fileHandles == old(fileHandles)
    {
      l := GetConfiguredLogger(StdoutConfig(name), OpenFailed);
    }

    /** `GetFileLogger`: a debug-level logger on the file at `filePath`. */
    method GetFileLogger(name: string, filePath: string, alsoToStdout: bool, open: OpenOutcome)
      returns (l: Logger)
      requires Valid()
      modifies this
      ensures Valid()
      ensures (State(), l) == Acquire(old(State()), FileConfig(name, filePath, alsoToStdout), open)
      ensures name !in old(logInstances) ==> l.level == DebugLevel
    {
      l := GetConfiguredLogger(FileConfig(name, filePath, alsoToStdout), open);
    }

    /**
     * `CloseAllLoggers`: on the first call, close and forget every file
     * handle, in some order, and empty the logger table. `closed` lists the
     * handles closed, in the order they were closed.
     */
    method CloseAllLoggers() returns (closed: seq<(string, FileHandle)>)
      requires Valid()
      modifies this
      ensures Valid()
      ensures State() == CloseAll(old(State()))
      ensures old(closeDone) ==> closed == []
      ensures !old(closeDone) ==> ClosesEachOnce(closed, old(fileHandles))
    {
      closed := [];
      if closeDone {
        return;
      }
      closeDone := true;
      while fileHandles != map[]
        invariant ClosingSoFar(closed, fileHandles, old(fileHandles))
        invariant logInstances == old(logInstances) && closeDone
        decreases |fileHandles|
      {
        var name :| name in fileHandles;
        CloseOneStep(closed, fileHandles, old(fileHandles), name);
        closed := closed + [(name, fileHandles[name])];
        fileHandles := fileHandles - {name};
      }
      ClosingDone(closed, old(fileHandles));
      logInstances := map[];
    }
  }
}
