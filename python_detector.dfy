/** Choosing and parsing the Python interpreter command
    (auto-claude-ui/src/main/python-detector.ts). Running `<cmd> --version`
    is an oracle: it yields the command's output, or None when the command
    is missing, fails or times out. */
module PythonDetector {
  import opened Common
  import opened Strings

  type VersionProbe = string -> Option<string>

  /** The commands tried, in order: the `py` launcher first on Windows,
      `python3` first elsewhere. */
  function Candidates(isWindows: bool): (cmds: seq<string>)
    ensures |cmds| == (if isWindows then 4 else 2)
  {
    if isWindows then ["py -3", "python", "python3", "py"] else ["python3", "python"]
  }

  /** `getDefaultPythonCommand`: the platform's conventional name. */
  function GetDefaultPythonCommand(isWindows: bool): (cmd: string)
    ensures cmd == (if isWindows then "python" else "python3")
    ensures cmd in Candidates(isWindows)
  {
    if isWindows then "python" else "python3"
  }

  predicate ReportsPython3(probe: VersionProbe, cmd: string) {
    probe(cmd).Some? && Contains(probe(cmd).value, "Python 3")
  }

  /** The position of the first command whose version output mentions
      Python 3. */
  function FirstPython3(cmds: seq<string>, probe: VersionProbe): Option<nat> {
    FirstIndexWhere(cmds, cmd => ReportsPython3(probe, cmd))
  }

  /** `findPythonCommand`: the first candidate that reports Python 3, else
      the platform default. */
  method FindPythonCommand(isWindows: bool, probe: VersionProbe) returns (cmd: string)
    ensures cmd != ""
    ensures FirstPython3(Candidates(isWindows), probe).Some? ==>
      cmd == Candidates(isWindows)[FirstPython3(Candidates(isWindows), probe).value]
    ensures FirstPython3(Candidates(isWindows), probe).None? ==>
      cmd == GetDefaultPythonCommand(isWindows)
  {
    var cmds := Candidates(isWindows);
    for i := 0 to |cmds|
      invariant forall j :: 0 <= j < i ==> !ReportsPython3(probe, cmds[j])
    {
      var version := probe(cmds[i]);
      if version.Some? && Contains(version.value, "Python 3") {
        return cmds[i];
      }
    }
    cmd := if isWindows then "python" else "python3";
  }

  predicate IsAsciiLetter(c: char) {
    ('a' <= c <= 'z') || ('A' <= c <= 'Z')
  }

  /** An absolute path: a leading slash or a drive letter and a colon. */
  predicate LooksAbsolute(pythonPath: string) {
    StartsWith(pythonPath, "/") || (|pythonPath| >= 2 && IsAsciiLetter(pythonPath[0]) && pythonPath[1] == ':')
  }

  /** `parsePythonCommand`: an absolute path is kept whole (it may contain
      spaces); anything else is split on single spaces into a command and its
      leading arguments, which rejoin to the input. */
  function ParsePythonCommand(pythonPath: string): (r: (string, seq<string>))
    ensures LooksAbsolute(pythonPath) ==> r == (pythonPath, [])
    ensures !LooksAbsolute(pythonPath) ==> Join([r.0] + r.1, " ") == pythonPath && ' ' !in r.0
    ensures !LooksAbsolute(pythonPath) ==> forall i :: 0 <= i < |r.1| ==> ' ' !in r.1[i]
  {
    if LooksAbsolute(pythonPath) then (pythonPath, [])
    else
      var parts := Split(pythonPath, ' ');
      assert parts == [parts[0]] + parts[1..];
      (parts[0], parts[1..])
  }
}
