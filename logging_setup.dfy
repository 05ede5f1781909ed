/** Optional file logging of the agent runtime
    (auto-claude/core/logging_setup.py): reading integer settings from the
    environment, choosing the log file, and attaching a rotating file
    handler to the root logger. Paths are POSIX strings. */
module LoggingSetup {
  import opened Common
  import opened Strings

  const DefaultLogLevel: string := "INFO"
  const DefaultMaxBytes: int := 5 * 1024 * 1024
  const DefaultBackupCount: int := 3
  const LogFileName: string := "auto-claude.log"

  /** The numeric levels of the `logging` module. */
  const NotSet: int := 0
  const Debug: int := 10
  const Info: int := 20
  const Warning: int := 30
  const Error: int := 40
  const Critical: int := 50

  // ---------------------------------------------------------------------
  // Python's int()

  /** Decimal digits with single underscores between them, as `int()`
      accepts them. */
  predicate IsDigitRun(s: string) {
    s != [] && IsDigit(s[0]) && DigitsAndUnderscores(s)
    && forall i :: 0 <= i < |s| && s[i] == '_' ==> i + 1 < |s| && IsDigit(s[i + 1])
  }

  predicate DigitsAndUnderscores(s: string) {
    forall i :: 0 <= i < |s| ==> IsDigit(s[i]) || s[i] == '_'
  }

  function DropUnderscores(s: string): (digits: string)
    ensures |digits| <= |s|
  {
    if s == [] then []
    else if s[|s| - 1] == '_' then DropUnderscores(s[..|s| - 1])
    else DropUnderscores(s[..|s| - 1]) + [s[|s| - 1]]
  }

  lemma {:induction false} DropUnderscoresDigits(s: string)
    requires DigitsAndUnderscores(s)
    ensures AllDigits(DropUnderscores(s))
    ensures AllDigits(s) ==> DropUnderscores(s) == s
  {
    if s != [] {
      DropUnderscoresDigits(s[..|s| - 1]);
    }
  }

  /** The default `sys.get_int_max_str_digits()`: `int()` refuses a
      decimal string with more digits than this. */
  const MaxStrDigits: nat := 4300

  /** `int(s)` for a base-10 string: surrounding whitespace, an optional
      sign, then a run of at most `MaxStrDigits` digits (underscores not
      counted); None where `int()` raises `ValueError`. */
  function ParsePyInt(s: string): (r: Option<int>) {
    ParseStripped(PyStrip(s))
  }

  /** `int()` on text already stripped of surrounding whitespace: a
      leading `-` negates, a leading `+` is dropped. */
  function ParseStripped(t: string): (r: Option<int>) {
    if t == "" then None
    else if t[0] == '-' then
      match ParseMagnitude(t[1..])
      case None => None
      case Some(m) => Some(-m)
    else if t[0] == '+' then ParseMagnitude(t[1..])
    else ParseMagnitude(t)
  }

  /** The unsigned part: a digit run of at most `MaxStrDigits` digits,
      underscores not counted. */
  function ParseMagnitude(body: string): (r: Option<int>) {
    if !IsDigitRun(body) || |DropUnderscores(body)| > MaxStrDigits then None
    else
      DropUnderscoresDigits(body);
      Some(DigitsValue(DropUnderscores(body)))
  }

  /** The number of decimal digits of `n`, its sign not counted. */
  function DigitCount(n: int): nat {
    |NatToString(if n < 0 then -n else n)|
  }

  /** A non-empty run of plain digits is read as its decimal value. */
  lemma DigitsParse(t: string)
    requires t != [] && AllDigits(t)
    ensures IsDigitRun(t) && DropUnderscores(t) == t
  {
    DropUnderscoresDigits(t);
  }

  /** A run of plain digits is read as its value within the digit limit
      and refused beyond it. */
  lemma ParseMagnitudeDigits(body: string)
    requires body != [] && AllDigits(body)
    ensures ParseMagnitude(body) == if |body| > MaxStrDigits then None else Some(DigitsValue(body))
  {
    DigitsParse(body);
  }

  /** `str(n)` is `n`'s magnitude, after a minus sign when `n` is negative,
      with no surrounding whitespace. */
  lemma IntToStringForm(n: int)
    ensures IntToString(n) == (if n < 0 then "-" + NatToString(-n) else NatToString(n))
    ensures PyStrip(IntToString(n)) == IntToString(n)
  {
    var s := IntToString(n);
    assert !IsPyWhitespace(s[0]) && !IsPyWhitespace(s[|s| - 1]);
    PyStripNoop(s);
  }

  /** `int(str(n))` is decided by `n`'s magnitude alone, negated back
      for a negative `n`. */
  lemma ParsePyIntOfIntToString(n: int)
    ensures var r := ParseMagnitude(NatToString(if n < 0 then -n else n));
      ParsePyInt(IntToString(n)) == if n < 0 && r.Some? then Some(-r.value) else r
  {
    IntToStringForm(n);
    var s := IntToString(n);
    if n < 0 {
      assert s[0] == '-' && s[1..] == NatToString(-n);
    } else {
      assert s[0] != '-' && s[0] != '+';
    }
  }

  /** `int()` reads back every integer `str()` writes within the digit
      limit. */
  lemma ParsePyIntRoundTrip(n: int)
    requires DigitCount(n) <= MaxStrDigits
    ensures ParsePyInt(IntToString(n)) == Some(n)
  {
    ParsePyIntOfIntToString(n);
    ParseMagnitudeDigits(NatToString(if n < 0 then -n else n));
  }

  /** Text that is not a run of digits after an optional sign is refused. */
  lemma ParsePyIntRejects(s: string)
    requires var t := PyStrip(s);
      t == "" || !IsDigitRun(if t[0] == '-' || t[0] == '+' then t[1..] else t)
    ensures ParsePyInt(s).None?
  {
  }

  /** An integer with more digits than the limit is refused, so its
      decimal form does not read back. */
  lemma ParsePyIntTooLong(n: int)
    requires DigitCount(n) > MaxStrDigits
    ensures ParsePyInt(IntToString(n)).None?
  {
    ParsePyIntOfIntToString(n);
    ParseMagnitudeDigits(NatToString(if n < 0 then -n else n));
  }

  /** `_int_env(name, default)`: the variable's integer value; the default
      when it is unset, empty or not an integer. */
  function IntEnv(env: map<string, string>, name: string, default: int): (r: int)
    ensures name !in env || env[name] == "" ==> r == default
    ensures name in env && env[name] != "" && ParsePyInt(env[name]).None? ==> r == default
    ensures name in env && ParsePyInt(env[name]).Some? ==> r == ParsePyInt(env[name]).value
  {
    if name !in env || env[name] == "" then default
    else
      match ParsePyInt(env[name])
      case None => default
      case Some(v) => v
  }

  /** Setting the variable to a number's decimal form gives that number
      back, within the digit limit. */
  lemma IntEnvRoundTrip(env: map<string, string>, name: string, default: int, n: int)
    requires DigitCount(n) <= MaxStrDigits
    ensures IntEnv(env[name := IntToString(n)], name, default) == n
  {
    ParsePyIntRoundTrip(n);
  }

  /** Beyond the digit limit `int()` raises and the default is used. */
  lemma IntEnvTooLong(env: map<string, string>, name: string, default: int, n: int)
    requires DigitCount(n) > MaxStrDigits
    ensures IntEnv(env[name := IntToString(n)], name, default) == default
  {
    ParsePyIntTooLong(n);
  }

  // ---------------------------------------------------------------------
  // The log file

  /** `os.environ.get(name)` when it is truthy. */
  function EnvValue(env: map<string, string>, name: string): Option<string> {
    if name in env && env[name] != "" then Some(env[name]) else None
  }

  predicate IsAbsolute(path: string) {
    StartsWith(path, "/")
  }

  /** The path `configure_logging` returns and logs to: the configured
      file, else `auto-claude.log` in the configured directory; a relative
      path is resolved against the project directory when one is given. */
  function LogPath(env: map<string, string>, projectDir: Option<string>): (path: Option<string>)
    ensures path.None? <==> EnvValue(env, "AUTO_CLAUDE_LOG_FILE").None? && EnvValue(env, "AUTO_CLAUDE_LOG_DIR").None?
  {
    var logFile := EnvValue(env, "AUTO_CLAUDE_LOG_FILE");
    var logDir := EnvValue(env, "AUTO_CLAUDE_LOG_DIR");
    if logFile.None? && logDir.None? then None
    else
      var path := if logFile.Some? then logFile.value else PyPathJoin(logDir.value, LogFileName);
      if !IsAbsolute(path) && projectDir.Some? then Some(PyPathJoin(projectDir.value, path)) else Some(path)
  }

  /** The file setting beats the directory setting; the directory setting
      names `auto-claude.log` inside it; an absolute path is kept and a
      relative one lands under the project directory. */
  lemma LogPathChoice(env: map<string, string>, projectDir: Option<string>)
    ensures var file := EnvValue(env, "AUTO_CLAUDE_LOG_FILE");
      file.Some? && IsAbsolute(file.value) ==> LogPath(env, projectDir) == file
    ensures var file := EnvValue(env, "AUTO_CLAUDE_LOG_FILE");
      file.Some? && !IsAbsolute(file.value) && projectDir.Some? && projectDir.value != "" ==>
        LogPath(env, projectDir) == Some(projectDir.value + "/" + file.value)
    ensures var file := EnvValue(env, "AUTO_CLAUDE_LOG_FILE");
      var dir := EnvValue(env, "AUTO_CLAUDE_LOG_DIR");
      file.None? && dir.Some? && IsAbsolute(dir.value) ==>
        LogPath(env, projectDir) == Some(dir.value + "/" + LogFileName)
    ensures var file := EnvValue(env, "AUTO_CLAUDE_LOG_FILE");
      var dir := EnvValue(env, "AUTO_CLAUDE_LOG_DIR");
      file.None? && dir.Some? && !IsAbsolute(dir.value) && projectDir.Some? && projectDir.value != "" ==>
        LogPath(env, projectDir) == Some(projectDir.value + "/" + dir.value + "/" + LogFileName)
    ensures LogPath(env, projectDir).Some? && projectDir.None? ==>
      LogPath(env, projectDir).value == EnvValue(env, "AUTO_CLAUDE_LOG_FILE").GetOr(
        PyPathJoin(EnvValue(env, "AUTO_CLAUDE_LOG_DIR").GetOr(""), LogFileName))
  {
    var dir := EnvValue(env, "AUTO_CLAUDE_LOG_DIR");
    if dir.Some? {
      assert LogFileName[0] == 'a';
      var joined := dir.value + "/" + LogFileName;
      assert joined[..1] == dir.value[..1];
      assert PyPathJoin(dir.value, LogFileName) == joined;
      if projectDir.Some? && projectDir.value != "" {
        assert IsAbsolute(joined) == IsAbsolute(dir.value);
        assert projectDir.value + "/" + joined == projectDir.value + "/" + dir.value + "/" + LogFileName;
      }
    }
  }

  /** The ASCII letters of `s` in upper case. */
  function Upper(s: string): (r: string)
    ensures |r| == |s|
  {
    if s == [] then []
    else [if 'a' <= s[0] <= 'z' then (s[0] as int - 32) as char else s[0]] + Upper(s[1..])
  }

  /** The level names the `logging` module defines, with their values. */
  const LevelNames: map<string, int> :=
    map["CRITICAL" := Critical, "FATAL" := Critical, "ERROR" := Error, "WARNING" := Warning,
        "WARN" := Warning, "INFO" := Info, "DEBUG" := Debug, "NOTSET" := NotSet]

  /** `getattr(logging, name, logging.INFO)` for the level names of the
      `logging` module. */
  function LevelNamed(name: string): (level: int)
    ensures level in {NotSet, Debug, Info, Warning, Error, Critical}
    ensures name in LevelNames ==> level == LevelNames[name]
    ensures name !in LevelNames ==> level == Info
  {
    if name == "CRITICAL" || name == "FATAL" then Critical
    else if name == "ERROR" then Error
    else if name == "WARNING" || name == "WARN" then Warning
    else if name == "INFO" then Info
    else if name == "DEBUG" then Debug
    else if name == "NOTSET" then NotSet
    else Info
  }

  /** The root level `configure_logging` asks for. */
  function ConfiguredLevel(env: map<string, string>): int {
    var name := if "AUTO_CLAUDE_LOG_LEVEL" in env then env["AUTO_CLAUDE_LOG_LEVEL"] else DefaultLogLevel;
    LevelNamed(Upper(name))
  }

  /** A `RotatingFileHandler` as configured. */
  datatype FileHandler = FileHandler(path: string, maxBytes: int, backupCount: int)

  /** The root logger: its handlers and its level. */
  class RootLogger {
    var handlers: seq<FileHandler>
    var level: int

    constructor(handlers: seq<FileHandler>, level: int)
      ensures this.handlers == handlers && this.level == level
    {
      this.handlers := handlers;
      this.level := level;
    }
  }

  /** `configure_logging`: nothing happens without a log path; otherwise a
      rotating handler for that path is added to the root logger, whose
      level is set when it had no handlers (`basicConfig`) or no level. */
  method ConfigureLogging(root: RootLogger, env: map<string, string>, projectDir: Option<string>)
    returns (path: Option<string>)
    modifies root
    ensures path == LogPath(env, projectDir)
    ensures path.None? ==> root.handlers == old(root.handlers) && root.level == old(root.level)
    ensures path.Some? ==> root.handlers == old(root.handlers) + [FileHandler(path.value,
      IntEnv(env, "AUTO_CLAUDE_LOG_MAX_BYTES", DefaultMaxBytes), IntEnv(env, "AUTO_CLAUDE_LOG_BACKUPS", DefaultBackupCount))]
    ensures path.Some? ==>
      root.level == (if old(root.handlers) == [] || old(root.level) == NotSet then ConfiguredLevel(env) else old(root.level))
  {
    var logFile := EnvValue(env, "AUTO_CLAUDE_LOG_FILE");
    var logDir := EnvValue(env, "AUTO_CLAUDE_LOG_DIR");
    if logFile.None? && logDir.None? {
      return None;
    }
    var p := if logFile.Some? then logFile.value else PyPathJoin(logDir.value, LogFileName);
    if !IsAbsolute(p) && projectDir.Some? {
      p := PyPathJoin(projectDir.value, p);
    }
    var levelName := if "AUTO_CLAUDE_LOG_LEVEL" in env then env["AUTO_CLAUDE_LOG_LEVEL"] else DefaultLogLevel;
    var level := LevelNamed(Upper(levelName));
    var maxBytes := IntEnv(env, "AUTO_CLAUDE_LOG_MAX_BYTES", DefaultMaxBytes);
    var backupCount := IntEnv(env, "AUTO_CLAUDE_LOG_BACKUPS", DefaultBackupCount);
    var handler := FileHandler(p, maxBytes, backupCount);
    if root.handlers == [] {
      root.level := level;
      root.handlers := [handler];
    } else {
      root.handlers := root.handlers + [handler];
      if root.level == NotSet {
        root.level := level;
      }
    }
    path := Some(p);
  }
}
