/** Path detection and environment loading for the insights worker
    (auto-claude-ui/src/main/insights/config.ts). The file system is a set of
    existing paths plus the contents of the readable files; the five places
    where the worker's source may be installed are given already resolved,
    in the order the code tries them. */
module InsightsConfig {
  import opened Common
  import opened Strings
  import PythonDetector

  datatype Host = Host(
    existing: set<string>,            // existsSync
    files: map<string, string>,       // readFileSync; a missing entry throws
    isWindows: bool,
    sourceCandidates: seq<string>)    // userData copy, beside the code, beside the app, ...

  /** A worker source directory exists and holds its `requirements.txt`. */
  predicate IsSourceDir(host: Host, p: string) {
    p in host.existing && NodePathJoin(p, "requirements.txt") in host.existing
  }

  /** What `getAutoBuildSourcePath` returns. */
  function AutoBuildSource(configured: string, host: Host): Option<string> {
    if configured != "" && configured in host.existing then Some(configured)
    else
      match FirstIndexWhere(host.sourceCandidates, p => IsSourceDir(host, p))
      case None => None
      case Some(k) => Some(host.sourceCandidates[k])
  }

  /** The configured directory wins when it is set and exists; otherwise
      the first candidate that is a source directory, or nothing when none
      is. A returned directory exists. */
  lemma AutoBuildSourceChoice(configured: string, host: Host)
    ensures var r := AutoBuildSource(configured, host);
      (r.Some? ==> r.value in host.existing)
      && (configured != "" && configured in host.existing ==> r == Some(configured))
      && (!(configured != "" && configured in host.existing) ==>
            (r.None? <==> forall j :: 0 <= j < |host.sourceCandidates| ==> !IsSourceDir(host, host.sourceCandidates[j]))
            && (r.Some? ==>
                  exists k :: 0 <= k < |host.sourceCandidates| && host.sourceCandidates[k] == r.value
                    && IsSourceDir(host, r.value)
                    && forall j :: 0 <= j < k ==> !IsSourceDir(host, host.sourceCandidates[j])))
  {
    if !(configured != "" && configured in host.existing) {
      var f := FirstIndexWhere(host.sourceCandidates, p => IsSourceDir(host, p));
      if f.Some? {
        assert host.sourceCandidates[f.value] == AutoBuildSource(configured, host).value;
      }
    }
  }

  /** The interpreters a virtual environment inside the source directory may hold. */
  function VenvCandidates(source: string, isWindows: bool): (cmds: seq<string>)
    ensures |cmds| == (if isWindows then 1 else 2)
  {
    var venv := NodePathJoin(source, ".venv");
    if isWindows then [NodePathJoin(NodePathJoin(venv, "Scripts"), "python.exe")]
    else [NodePathJoin(NodePathJoin(venv, "bin"), "python"), NodePathJoin(NodePathJoin(venv, "bin"), "python3")]
  }

  /** What `getPythonPath` returns. */
  function PythonPath(configuredPython: string, configuredSource: string, host: Host): string {
    match AutoBuildSource(configuredSource, host)
    case None => configuredPython
    case Some(source) =>
      var cands := VenvCandidates(source, host.isWindows);
      match FirstIndexWhere(cands, p => p in host.existing)
      case None => configuredPython
      case Some(k) => cands[k]
  }

  /** The interpreter is the first existing virtual-environment candidate
      of the source directory, otherwise the configured command. */
  lemma PythonPathChoice(configuredPython: string, configuredSource: string, host: Host)
    ensures var r := PythonPath(configuredPython, configuredSource, host);
      (r == configuredPython || r in host.existing)
      && (AutoBuildSource(configuredSource, host).None? ==> r == configuredPython)
      && (AutoBuildSource(configuredSource, host).Some? ==>
            var cands := VenvCandidates(AutoBuildSource(configuredSource, host).value, host.isWindows);
            if exists j :: 0 <= j < |cands| && cands[j] in host.existing then
              exists k :: 0 <= k < |cands| && cands[k] == r && r in host.existing
                && forall j :: 0 <= j < k ==> cands[j] !in host.existing
            else r == configuredPython)
  {
    var source := AutoBuildSource(configuredSource, host);
    if source.Some? {
      var cands := VenvCandidates(source.value, host.isWindows);
      var f := FirstIndexWhere(cands, p => p in host.existing);
      if f.Some? {
        assert cands[f.value] == PythonPath(configuredPython, configuredSource, host);
      }
    }
  }

  // ---------------------------------------------------------------------
  // The `.env` file of the worker source

  /** Removes one pair of matching outer quotes; a lone quote character
      counts as both ends and leaves the empty string. */
  function StripQuotes(v: string): (r: string)
    ensures |v| >= 2 && (v[0] == v[|v| - 1] == '"' || v[0] == v[|v| - 1] == '\'') ==> r == v[1..|v| - 1]
    ensures v == "\"" || v == "'" ==> r == ""
    ensures v == [] || (v[0] != '"' && v[0] != '\'') || v[0] != v[|v| - 1] ==> r == v
  {
    if |v| >= 1 && ((v[0] == '"' && v[|v| - 1] == '"') || (v[0] == '\'' && v[|v| - 1] == '\'')) then
      if |v| >= 2 then v[1..|v| - 1] else ""
    else v
  }

  /** One line of a `.env` file: blank lines and comments carry nothing; so
      do lines without `=` or starting with it. Otherwise the key is what
      precedes the first `=` and the value what follows, both trimmed, and
      the value loses one pair of outer quotes. */
  function ParseEnvLine(line: string): Option<(string, string)>
  {
    var t := JsTrim(line);
    if t == "" || StartsWith(t, "#") then None
    else
      var eq := IndexOf(t, '=');
      if eq > 0 then Some((JsTrim(t[..eq]), StripQuotes(JsTrim(t[eq + 1..]))))
      else None
  }

  /** Blank lines, comments and lines without a key before an `=` define
      nothing. */
  lemma ParseEnvLineSkips(line: string)
    ensures IsJsBlank(line) || StartsWith(JsTrim(line), "#") ==> ParseEnvLine(line).None?
    ensures IndexOf(JsTrim(line), '=') <= 0 ==> ParseEnvLine(line).None?
  {
    JsTrimSpec(line);
  }

  /** A defined key is never empty and never holds `=`. */
  lemma ParseEnvLineKey(line: string)
    requires ParseEnvLine(line).Some?
    ensures ParseEnvLine(line).value.0 != "" && '=' !in ParseEnvLine(line).value.0
  {
    var t := JsTrim(line);
    var eq := IndexOf(t, '=');
    var key := JsTrim(t[..eq]);
    JsTrimSpec(line);
    JsTrimSpec(t[..eq]);
    assert key != "" by { assert !IsJsWhitespace(t[0]); assert !IsJsBlank(t[..eq]); }
    assert '=' !in key by {
      forall c | c in key ensures c != '=' {
        var k :| 0 <= k <= eq && key <= t[..eq][k..];
      }
    }
  }

  const ProtoKey: string := "__proto__"

  /** `obj[key] = value` on a plain object: `__proto__` reaches the
      inherited accessor, which ignores a string, so it defines nothing;
      any other key is set. */
  function Assign(obj: map<string, string>, key: string, value: string): (r: map<string, string>)
    ensures key == ProtoKey ==> r == obj
    ensures key != ProtoKey ==> key in r && r[key] == value
    ensures forall k | k != key :: (k in r <==> k in obj) && (k in r ==> r[k] == obj[k])
  {
    if key == ProtoKey then obj else obj[key := value]
  }

  /** The variables a sequence of parsed lines defines, the later of two
      definitions of a key winning. */
  function ApplyEntries(entries: seq<Option<(string, string)>>): map<string, string>
  {
    if entries == [] then map[]
    else
      var earlier := ApplyEntries(entries[..|entries| - 1]);
      match entries[|entries| - 1]
      case None => earlier
      case Some((k, v)) => Assign(earlier, k, v)
  }

  /** The variables a `.env` file defines. */
  function ParseEnvLines(lines: seq<string>): map<string, string> {
    ApplyEntries(seq(|lines|, i requires 0 <= i < |lines| => ParseEnvLine(lines[i])))
  }

  lemma ParseEnvLineEntry(line: string, t: string, eq: int)
    requires t == JsTrim(line) && t != "" && !StartsWith(t, "#")
    requires eq == IndexOf(t, '=') && eq > 0
    ensures ParseEnvLine(line) == Some((JsTrim(t[..eq]), StripQuotes(JsTrim(t[eq + 1..]))))
  {
  }

  /** Parsing one more line updates the variables parsed so far. */
  lemma ParseEnvLinesStep(lines: seq<string>, i: nat)
    requires i < |lines|
    ensures ParseEnvLines(lines[..i + 1]) ==
      match ParseEnvLine(lines[i])
      case None => ParseEnvLines(lines[..i])
      case Some((k, v)) => Assign(ParseEnvLines(lines[..i]), k, v)
  {
    var e := seq(i + 1, j requires 0 <= j < i + 1 => ParseEnvLine(lines[..i + 1][j]));
    assert e[..i] == seq(i, j requires 0 <= j < i => ParseEnvLine(lines[..i][j]));
  }

  /** Of two entries for the same key the later wins: a key takes the value
      of the last entry that defines it. */
  lemma {:induction false} ApplyEntriesLastWins(entries: seq<Option<(string, string)>>, i: nat, k: string, v: string)
    requires i < |entries| && entries[i] == Some((k, v)) && k != ProtoKey
    requires forall j :: i < j < |entries| ==> entries[j].None? || entries[j].value.0 != k
    ensures k in ApplyEntries(entries) && ApplyEntries(entries)[k] == v
  {
    if i < |entries| - 1 {
      var init := entries[..|entries| - 1];
      ApplyEntriesLastWins(init, i, k, v);
    }
  }

  /** A `__proto__` line never defines a variable. */
  lemma {:induction false} ApplyEntriesNoProto(entries: seq<Option<(string, string)>>)
    ensures ProtoKey !in ApplyEntries(entries)
  {
    if entries != [] {
      ApplyEntriesNoProto(entries[..|entries| - 1]);
    }
  }

  /** Every defined key comes from an entry that defines it. */
  lemma {:induction false} ApplyEntriesKeys(entries: seq<Option<(string, string)>>, k: string)
    requires k in ApplyEntries(entries)
    ensures exists i :: 0 <= i < |entries| && entries[i].Some? && entries[i].value.0 == k
  {
    var init := entries[..|entries| - 1];
    var last := entries[|entries| - 1];
    if !(last.Some? && last.value.0 == k) {
      ApplyEntriesKeys(init, k);
      var i :| 0 <= i < |init| && init[i].Some? && init[i].value.0 == k;
      assert entries[i] == init[i];
    }
  }

  predicate IsEnvKey(key: string) {
    key != "" && '=' !in key && key[0] != '#'
    && !IsJsWhitespace(key[0]) && !IsJsWhitespace(key[|key| - 1])
  }

  /** A line `key=rest` whose key is trimmed, holds no `=` and does not
      start a comment splits at the key. */
  lemma EnvLineSplitsAtKey(key: string, rest: string)
    requires IsEnvKey(key)
    requires rest == [] || !IsJsWhitespace(rest[|rest| - 1])
    ensures ParseEnvLine(key + "=" + rest) == Some((key, StripQuotes(JsTrim(rest))))
  {
    var line := key + "=" + rest;
    assert line[0] == key[0] && line[|key|] == '=';
    assert !IsJsWhitespace(line[|line| - 1]);
    JsTrimNoop(line);
    assert !StartsWith(line, "#");
    assert line == key + ['='] + rest;
    FirstIndexOfAfter(key, '=', rest);
    assert IndexOf(line, '=') == |key|;
    assert line[..|key|] == key && line[|key| + 1..] == rest;
    JsTrimNoop(key);
    ParseEnvLineEntry(line, line, |key|);
  }

  /** A line written as `KEY=value` parses back to that key and value when
      the value has no surrounding whitespace and does not start with a
      quote; the value may itself contain `=`. */
  lemma EnvLineRoundTrip(key: string, value: string)
    requires IsEnvKey(key)
    requires value == [] || (!IsJsWhitespace(value[0]) && !IsJsWhitespace(value[|value| - 1])
                             && value[0] != '"' && value[0] != '\'')
    ensures ParseEnvLine(key + "=" + value) == Some((key, value))
  {
    EnvLineSplitsAtKey(key, value);
    JsTrimNoop(value);
  }

  /** A line written as `KEY="value"` parses back to exactly that value,
      surrounding whitespace and inner quotes included. */
  lemma EnvLineQuotedRoundTrip(key: string, value: string)
    requires IsEnvKey(key)
    ensures ParseEnvLine(key + "=\"" + value + "\"") == Some((key, value))
  {
    var quoted := "\"" + value + "\"";
    assert key + "=\"" + value + "\"" == key + "=" + quoted;
    EnvLineSplitsAtKey(key, quoted);
    JsTrimNoop(quoted);
    assert quoted[1..|quoted| - 1] == value;
  }

  /** What `loadAutoBuildEnv` returns: the parsed `.env` of the source
      directory, or nothing when there is no source directory, no `.env` or
      it cannot be read. */
  function AutoBuildEnv(configuredSource: string, host: Host): map<string, string> {
    match AutoBuildSource(configuredSource, host)
    case None => map[]
    case Some(source) =>
      var envPath := NodePathJoin(source, ".env");
      if envPath !in host.existing || envPath !in host.files then map[]
      else ParseEnvLines(SplitLines(host.files[envPath]))
  }

  const ForcedPythonEnv: map<string, string> :=
    map["PYTHONUNBUFFERED" := "1", "PYTHONIOENCODING" := "utf-8", "PYTHONUTF8" := "1"]

  /** `getProcessEnv`: the process environment, overridden by the `.env`
      file, overridden by the active profile, with the three unbuffered
      UTF-8 settings forced last. */
  function MergeProcessEnv(processEnv: map<string, string>, autoBuildEnv: map<string, string>,
                           profileEnv: map<string, string>): map<string, string>
  {
    processEnv + autoBuildEnv + profileEnv + ForcedPythonEnv
  }

  /** The merged environment holds every variable of its sources; the
      forced settings always win, then the profile, then the `.env` file,
      then the process. */
  lemma MergeProcessEnvPrecedence(processEnv: map<string, string>, autoBuildEnv: map<string, string>,
                                  profileEnv: map<string, string>)
    ensures var r := MergeProcessEnv(processEnv, autoBuildEnv, profileEnv);
      r.Keys == processEnv.Keys + autoBuildEnv.Keys + profileEnv.Keys + ForcedPythonEnv.Keys
      && r["PYTHONUNBUFFERED"] == "1" && r["PYTHONIOENCODING"] == "utf-8" && r["PYTHONUTF8"] == "1"
      && forall k :: k in r && k !in ForcedPythonEnv ==>
           r[k] == (if k in profileEnv then profileEnv[k]
                    else if k in autoBuildEnv then autoBuildEnv[k]
                    else processEnv[k])
  {
  }

  /** The configuration object: the interpreter command and an optional
      explicitly configured worker source directory (empty when unset). */
  class Config {
    var pythonPath: string
    var autoBuildSourcePath: string

    /** The interpreter command starts as the detected one. */
    constructor (isWindows: bool, probe: PythonDetector.VersionProbe)
      ensures pythonPath != "" && autoBuildSourcePath == ""
      ensures PythonDetector.FirstPython3(PythonDetector.Candidates(isWindows), probe).Some? ==>
        pythonPath == PythonDetector.Candidates(isWindows)[PythonDetector.FirstPython3(PythonDetector.Candidates(isWindows), probe).value]
      ensures PythonDetector.FirstPython3(PythonDetector.Candidates(isWindows), probe).None? ==>
        pythonPath == PythonDetector.GetDefaultPythonCommand(isWindows)
    {
      var detected := PythonDetector.FindPythonCommand(isWindows, probe);
      pythonPath := if detected != "" then detected else "python";
      autoBuildSourcePath := "";
    }

    /** `configure`: an absent or empty argument leaves its field alone. */
    method Configure(newPythonPath: Option<string>, newSourcePath: Option<string>)
      modifies this
      ensures pythonPath == (if newPythonPath.Some? && newPythonPath.value != "" then newPythonPath.value else old(pythonPath))
      ensures autoBuildSourcePath == (if newSourcePath.Some? && newSourcePath.value != "" then newSourcePath.value else old(autoBuildSourcePath))
    {
      if newPythonPath.Some? && newPythonPath.value != "" {
        pythonPath := newPythonPath.value;
      }
      if newSourcePath.Some? && newSourcePath.value != "" {
        autoBuildSourcePath := newSourcePath.value;
      }
    }

    /** `getAutoBuildSourcePath` */
    method GetAutoBuildSourcePath(host: Host) returns (r: Option<string>)
      ensures r == AutoBuildSource(autoBuildSourcePath, host)
    {
      if autoBuildSourcePath != "" && autoBuildSourcePath in host.existing {
        return Some(autoBuildSourcePath);
      }
      var cands := host.sourceCandidates;
      for i := 0 to |cands|
        invariant forall j :: 0 <= j < i ==> !IsSourceDir(host, cands[j])
      {
        var p := cands[i];
        if p in host.existing && NodePathJoin(p, "requirements.txt") in host.existing {
          return Some(p);
        }
      }
      return None;
    }

    /** `getPythonPath` */
    method GetPythonPath(host: Host) returns (r: string)
      ensures r == PythonPath(pythonPath, autoBuildSourcePath, host)
    {
      var source := GetAutoBuildSourcePath(host);
      if source.Some? {
        var cands := VenvCandidates(source.value, host.isWindows);
        for i := 0 to |cands|
          invariant forall j :: 0 <= j < i ==> cands[j] !in host.existing
        {
          if cands[i] in host.existing {
            return cands[i];
          }
        }
      }
      return pythonPath;
    }

    /** `loadAutoBuildEnv` */
    method LoadAutoBuildEnv(host: Host) returns (envVars: map<string, string>)
      ensures envVars == AutoBuildEnv(autoBuildSourcePath, host)
    {
      var source := GetAutoBuildSourcePath(host);
      if source.None? {
        return map[];
      }
      var envPath := NodePathJoin(source.value, ".env");
      if envPath !in host.existing || envPath !in host.files {
        return map[];
      }
      var lines := SplitLines(host.files[envPath]);
      envVars := map[];
      for i := 0 to |lines|
        invariant envVars == ParseEnvLines(lines[..i])
      {
        ParseEnvLinesStep(lines, i);
        var trimmed := JsTrim(lines[i]);
        if trimmed == "" || StartsWith(trimmed, "#") {
          continue;
        }
        var eqIndex := IndexOf(trimmed, '=');
        if eqIndex > 0 {
          ParseEnvLineEntry(lines[i], trimmed, eqIndex);
          var key := JsTrim(trimmed[..eqIndex]);
          var value := JsTrim(trimmed[eqIndex + 1..]);
          value := StripQuotes(value);
          envVars := Assign(envVars, key, value);
        }
      }
      assert lines[..|lines|] == lines;
    }

    /** `getProcessEnv`; the process environment and the active profile's
        variables are parameters. */
    method GetProcessEnv(host: Host, processEnv: map<string, string>, profileEnv: map<string, string>)
      returns (env: map<string, string>)
      ensures env == MergeProcessEnv(processEnv, AutoBuildEnv(autoBuildSourcePath, host), profileEnv)
    {
      var autoBuildEnv := LoadAutoBuildEnv(host);
      env := processEnv + autoBuildEnv + profileEnv + ForcedPythonEnv;
    }
  }
}
