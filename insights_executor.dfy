/** The insights session executor
    (auto-claude-ui/src/main/insights/insights-executor.ts).

    An `Executor` keeps the registry of running worker processes, one per
    project. `Execute` checks the configuration, writes the conversation
    history to a temporary file, registers a new process and returns the
    `Session` that holds the state of its pending promise. The process then
    reaches the model as a sequence of calls, one per callback: a stdout
    chunk, a stderr chunk, `close`, `error` or the hard timeout. `JSON.parse`
    and the rate-limit detector are oracles; the clock is a parameter. */
module InsightsExecutor {
  import opened Common
  import opened Strings
  import InsightsConfig

  const MaxSessionMs: nat := 70000
  const MaxOutputChars: nat := 10000
  const TailLineCount: nat := 25

  const TaskSuggestionMarker: string := "__TASK_SUGGESTION__:"
  const ToolStartMarker: string := "__TOOL_START__:"
  const ToolEndMarker: string := "__TOOL_END__:"

  const ThinkingMessage: string := "Processing your message..."

  /** `detectRateLimit(output).isRateLimited` */
  type RateLimitDetector = string -> bool

  /** A record of `toolsUsed`; None stands for `undefined`. */
  datatype ToolUsage = ToolUsage(name: Option<Json>, input: Option<Json>, timestamp: int)

  datatype StreamChunk =
    | Text(content: string)
    | TaskSuggestion(suggestedTask: Json)
    | ToolStart(name: Option<Json>, input: Option<Json>)
    | ToolEnd(name: Option<Json>)
    | Done
    | Error(error: string)

  datatype ChatStatus = Thinking(message: string) | Complete

  /** What the executor emits: `stream-chunk`, `status`, `error` and
      `sdk-rate-limit` (whose payload is built from the output buffer). */
  datatype Event =
    | StreamChunkEvent(chunk: StreamChunk)
    | Status(status: ChatStatus)
    | ErrorEvent(message: string)
    | SdkRateLimit(output: string)

  /** How the promise of `execute` settles. */
  datatype Outcome =
    | Resolved(fullResponse: string, suggestedTask: Option<Json>, toolsUsed: seq<ToolUsage>)
    | Rejected(message: string)

  // ---------------------------------------------------------------------
  // What was streamed

  /** The concatenated content of the text chunks. */
  function TextOf(events: seq<Event>): string {
    if events == [] then ""
    else
      TextOf(events[..|events| - 1]) +
        match events[|events| - 1]
        case StreamChunkEvent(Text(c)) => c
        case _ => ""
  }

  /** The name and input of each `tool_start` chunk, in order. */
  function ToolStartsOf(events: seq<Event>): seq<(Option<Json>, Option<Json>)> {
    if events == [] then []
    else
      ToolStartsOf(events[..|events| - 1]) +
        match events[|events| - 1]
        case StreamChunkEvent(ToolStart(n, i)) => [(n, i)]
        case _ => []
  }

  /** The task of the last `task_suggestion` chunk. */
  function LastTask(events: seq<Event>): Option<Json> {
    if events == [] then None
    else
      match events[|events| - 1]
      case StreamChunkEvent(TaskSuggestion(t)) => Some(t)
      case _ => LastTask(events[..|events| - 1])
  }

  /** The number of terminal chunks (`done` or `error`). */
  function TerminalCount(events: seq<Event>): nat {
    if events == [] then 0
    else
      TerminalCount(events[..|events| - 1]) +
        match events[|events| - 1]
        case StreamChunkEvent(Done) => 1
        case StreamChunkEvent(Error(_)) => 1
        case _ => 0
  }

  function ToolCalls(tools: seq<ToolUsage>): seq<(Option<Json>, Option<Json>)> {
    seq(|tools|, i requires 0 <= i < |tools| => (tools[i].name, tools[i].input))
  }

  /** Dropping the last element of a non-empty appended part. */
  lemma AppendInit<T>(a: seq<T>, b: seq<T>)
    requires b != []
    ensures (a + b)[..|a + b| - 1] == a + b[..|b| - 1]
    ensures (a + b)[|a + b| - 1] == b[|b| - 1]
  {
  }

  lemma {:induction false} TextOfAppend(a: seq<Event>, b: seq<Event>)
    ensures TextOf(a + b) == TextOf(a) + TextOf(b)
    decreases |b|
  {
    if b == [] {
      assert a + b == a;
    } else {
      AppendInit(a, b);
      TextOfAppend(a, b[..|b| - 1]);
    }
  }

  lemma {:induction false} ToolStartsOfAppend(a: seq<Event>, b: seq<Event>)
    ensures ToolStartsOf(a + b) == ToolStartsOf(a) + ToolStartsOf(b)
    decreases |b|
  {
    if b == [] {
      assert a + b == a;
    } else {
      AppendInit(a, b);
      ToolStartsOfAppend(a, b[..|b| - 1]);
    }
  }

  lemma {:induction false} LastTaskAppend(a: seq<Event>, b: seq<Event>)
    ensures LastTask(a + b) == if LastTask(b).Some? then LastTask(b) else LastTask(a)
    decreases |b|
  {
    if b == [] {
      assert a + b == a;
    } else {
      AppendInit(a, b);
      LastTaskAppend(a, b[..|b| - 1]);
    }
  }

  lemma {:induction false} TerminalCountAppend(a: seq<Event>, b: seq<Event>)
    ensures TerminalCount(a + b) == TerminalCount(a) + TerminalCount(b)
    decreases |b|
  {
    if b == [] {
      assert a + b == a;
    } else {
      AppendInit(a, b);
      TerminalCountAppend(a, b[..|b| - 1]);
    }
  }

  /** Every fold over the emitted events distributes over appending. */
  lemma EventsAppend(a: seq<Event>, b: seq<Event>)
    ensures TextOf(a + b) == TextOf(a) + TextOf(b)
    ensures ToolStartsOf(a + b) == ToolStartsOf(a) + ToolStartsOf(b)
    ensures LastTask(a + b) == if LastTask(b).Some? then LastTask(b) else LastTask(a)
    ensures TerminalCount(a + b) == TerminalCount(a) + TerminalCount(b)
  {
    TextOfAppend(a, b);
    ToolStartsOfAppend(a, b);
    LastTaskAppend(a, b);
    TerminalCountAppend(a, b);
  }

  lemma ToolCallsAppend(a: seq<ToolUsage>, b: seq<ToolUsage>)
    ensures ToolCalls(a + b) == ToolCalls(a) + ToolCalls(b)
  {
  }

  // ---------------------------------------------------------------------
  // One line of stdout

  /** What handling some stdout lines does: the chunks emitted and what is
      appended to `fullResponse` and `toolsUsed`; `task` is the last
      suggested task, if any. */
  datatype LineEffect = LineEffect(events: seq<Event>, text: string, tools: seq<ToolUsage>, task: Option<Json>)

  const NoEffect := LineEffect([], "", [], None)

  /** Sequencing two effects. */
  function Then(a: LineEffect, b: LineEffect): LineEffect {
    LineEffect(a.events + b.events, a.text + b.text, a.tools + b.tools, if b.task.Some? then b.task else a.task)
  }

  /** The response text, the tool records and the suggested task are what
      the emitted chunks announce, and nothing terminal is emitted. */
  predicate Consistent(e: LineEffect) {
    e.text == TextOf(e.events) && ToolCalls(e.tools) == ToolStartsOf(e.events)
    && e.task == LastTask(e.events) && TerminalCount(e.events) == 0
  }

  lemma ThenConsistent(a: LineEffect, b: LineEffect)
    requires Consistent(a) && Consistent(b)
    ensures Consistent(Then(a, b))
  {
    EventsAppend(a.events, b.events);
    ToolCallsAppend(a.tools, b.tools);
  }

  /** What the stdout handler changes in a session: the emitted events,
      `fullResponse`, `toolsUsed` and `suggestedTask`. */
  datatype StreamState = StreamState(emitted: seq<Event>, fullResponse: string, toolsUsed: seq<ToolUsage>,
                                     suggestedTask: Option<Json>)

  /** The state after an effect: its chunks are emitted, its text and tool
      records appended, and its task, if any, replaces the previous one. */
  function Apply(st: StreamState, e: LineEffect): StreamState {
    StreamState(st.emitted + e.events, st.fullResponse + e.text, st.toolsUsed + e.tools,
                if e.task.Some? then e.task else st.suggestedTask)
  }

  lemma ApplyThen(st: StreamState, a: LineEffect, b: LineEffect)
    ensures Apply(Apply(st, a), b) == Apply(st, Then(a, b))
  {
  }

  predicate IsMarkerLine(line: string) {
    StartsWith(line, TaskSuggestionMarker) || StartsWith(line, ToolStartMarker) || StartsWith(line, ToolEndMarker)
  }

  /** A line that becomes response text. */
  predicate IsPlainLine(line: string) {
    !IsMarkerLine(line) && !IsJsBlank(line)
  }

  /** `toolData.name` where reading a property of a non-null value cannot
      throw: None for `undefined`. */
  function PropertyValue(value: Json, key: string): Option<Json>
    requires !value.JNull?
  {
    match GetProperty(value, key)
    case Defined(v) => Some(v)
    case _ => None
  }

  /** The body of the stdout loop for one line, with `handleTaskSuggestion`,
      `handleToolStart` and `handleToolEnd`: a marker line whose payload does
      not parse, or whose tool payload is `null`, does nothing. */
  function HandleLine(line: string, parse: JsonParser, now: int): LineEffect
  {
    if StartsWith(line, TaskSuggestionMarker) then
      match parse(line[|TaskSuggestionMarker|..])
      case None => NoEffect
      case Some(task) => LineEffect([StreamChunkEvent(TaskSuggestion(task))], "", [], Some(task))
    else if StartsWith(line, ToolStartMarker) then
      match parse(line[|ToolStartMarker|..])
      case None => NoEffect
      case Some(data) =>
        if data.JNull? then NoEffect
        else
          var name := PropertyValue(data, "name");
          var input := PropertyValue(data, "input");
          LineEffect([StreamChunkEvent(ToolStart(name, input))], "", [ToolUsage(name, input, now)], None)
    else if StartsWith(line, ToolEndMarker) then
      match parse(line[|ToolEndMarker|..])
      case None => NoEffect
      case Some(data) =>
        if data.JNull? then NoEffect
        else LineEffect([StreamChunkEvent(ToolEnd(PropertyValue(data, "name")))], "", [], None)
    else if !IsJsBlank(line) then
      LineEffect([StreamChunkEvent(Text(line + "\n"))], line + "\n", [], None)
    else NoEffect
  }

  /** The plain lines, each followed by a line feed, in order. */
  function PlainText(lines: seq<string>): string {
    if lines == [] then ""
    else
      var last := lines[|lines| - 1];
      PlainText(lines[..|lines| - 1]) + if IsPlainLine(last) then last + "\n" else ""
  }

  /** Handling the lines of one stdout chunk in order; `times[i]` is what
      the clock reads while line `i` is handled. */
  function Demux(lines: seq<string>, parse: JsonParser, times: seq<int>): LineEffect
    requires |times| == |lines|
  {
    if lines == [] then NoEffect
    else
      var n := |lines| - 1;
      Then(Demux(lines[..n], parse, times[..n]), HandleLine(lines[n], parse, times[n]))
  }

  /** The three markers exclude one another. */
  lemma MarkersExclusive(line: string)
    ensures !(StartsWith(line, TaskSuggestionMarker) && StartsWith(line, ToolStartMarker))
    ensures !(StartsWith(line, TaskSuggestionMarker) && StartsWith(line, ToolEndMarker))
    ensures !(StartsWith(line, ToolStartMarker) && StartsWith(line, ToolEndMarker))
  {
    if StartsWith(line, TaskSuggestionMarker) {
      assert line[3] == TaskSuggestionMarker[3];
    }
    if StartsWith(line, ToolStartMarker) {
      assert line[7] == ToolStartMarker[7];
    }
  }

  /** What one line does: at most one chunk, which announces exactly what is
      appended to the response and the tool records. Marker lines never
      reach the response, even when their payload does not parse; a plain
      line is appended with its line feed and streamed as it is; a blank
      line does nothing. */
  lemma HandleLineSpec(line: string, parse: JsonParser, now: int)
    ensures var e := HandleLine(line, parse, now);
      Consistent(e) && |e.events| <= 1
      && (IsMarkerLine(line) ==> e.text == "")
      && (!IsMarkerLine(line) ==> e.tools == [] && e.task.None?)
      && (IsPlainLine(line) ==> e.text == line + "\n" && e.events == [StreamChunkEvent(Text(line + "\n"))])
      && (!IsMarkerLine(line) && IsJsBlank(line) ==> e == NoEffect)
  {
    var e := HandleLine(line, parse, now);
    if e.events != [] {
      assert e.events[..0] == [];
    }
  }

  /** What each marker line does: a task suggestion streams and records the
      parsed task; a tool start streams its name and input and records them
      with the time; a tool end streams its name; a payload that does not
      parse, or a `null` tool payload, does nothing. */
  lemma MarkerLineSpec(line: string, parse: JsonParser, now: int)
    ensures var e := HandleLine(line, parse, now);
      StartsWith(line, TaskSuggestionMarker) ==>
        var task := parse(line[|TaskSuggestionMarker|..]);
        if task.Some? then e == LineEffect([StreamChunkEvent(TaskSuggestion(task.value))], "", [], task)
        else e == NoEffect
    ensures var e := HandleLine(line, parse, now);
      StartsWith(line, ToolStartMarker) ==>
        var data := parse(line[|ToolStartMarker|..]);
        if data.Some? && !data.value.JNull? then
          var name := PropertyValue(data.value, "name");
          var input := PropertyValue(data.value, "input");
          e == LineEffect([StreamChunkEvent(ToolStart(name, input))], "", [ToolUsage(name, input, now)], None)
        else e == NoEffect
    ensures var e := HandleLine(line, parse, now);
      StartsWith(line, ToolEndMarker) ==>
        var data := parse(line[|ToolEndMarker|..]);
        if data.Some? && !data.value.JNull? then
          e == LineEffect([StreamChunkEvent(ToolEnd(PropertyValue(data.value, "name")))], "", [], None)
        else e == NoEffect
  {
    MarkersExclusive(line);
  }

  /** The lines of a chunk stream exactly what they append to the response,
      the tool records and the suggested task, and the response grows by
      the plain lines, each with its line feed, in order. */
  lemma {:induction false} DemuxSpec(lines: seq<string>, parse: JsonParser, times: seq<int>)
    requires |times| == |lines|
    ensures Consistent(Demux(lines, parse, times))
    ensures Demux(lines, parse, times).text == PlainText(lines)
  {
    if lines != [] {
      var n := |lines| - 1;
      DemuxSpec(lines[..n], parse, times[..n]);
      HandleLineSpec(lines[n], parse, times[n]);
      ThenConsistent(Demux(lines[..n], parse, times[..n]), HandleLine(lines[n], parse, times[n]));
    }
  }

  lemma DemuxStep(lines: seq<string>, i: nat, parse: JsonParser, times: seq<int>)
    requires |times| == |lines| && i < |lines|
    ensures Demux(lines[..i + 1], parse, times[..i + 1])
         == Then(Demux(lines[..i], parse, times[..i]), HandleLine(lines[i], parse, times[i]))
  {
    assert lines[..i + 1][..i] == lines[..i];
    assert times[..i + 1][..i] == times[..i];
  }

  /** A line that records a tool use: a tool start whose payload parses to
      a value other than `null`. */
  predicate StartsTool(line: string, parse: JsonParser) {
    StartsWith(line, ToolStartMarker)
    && var data := parse(line[|ToolStartMarker|..]);
       data.Some? && !data.value.JNull?
  }

  /** The clock readings of the tool-start lines, in order. */
  function StartTimes(lines: seq<string>, parse: JsonParser, times: seq<int>): seq<int>
    requires |times| == |lines|
  {
    if lines == [] then []
    else
      var n := |lines| - 1;
      StartTimes(lines[..n], parse, times[..n]) + if StartsTool(lines[n], parse) then [times[n]] else []
  }

  function Timestamps(tools: seq<ToolUsage>): seq<int> {
    seq(|tools|, i requires 0 <= i < |tools| => tools[i].timestamp)
  }

  /** Each recorded tool use carries the clock reading of the tool-start
      line that made it, in line order. */
  lemma {:induction false} DemuxTimestamps(lines: seq<string>, parse: JsonParser, times: seq<int>)
    requires |times| == |lines|
    ensures Timestamps(Demux(lines, parse, times).tools) == StartTimes(lines, parse, times)
  {
    if lines != [] {
      var n := |lines| - 1;
      var earlier := Demux(lines[..n], parse, times[..n]).tools;
      var last := HandleLine(lines[n], parse, times[n]).tools;
      DemuxTimestamps(lines[..n], parse, times[..n]);
      HandleLineSpec(lines[n], parse, times[n]);
      MarkerLineSpec(lines[n], parse, times[n]);
      MarkersExclusive(lines[n]);
      assert Timestamps(earlier + last) == Timestamps(earlier) + Timestamps(last);
    }
  }

  // ---------------------------------------------------------------------
  // The diagnostic buffer and error messages

  /** `s.slice(-n)` for n > 0: the last n characters, or all of them. */
  function KeepLast(s: string, n: nat): (r: string)
    ensures |r| == if |s| <= n then |s| else n
    ensures r == s[|s| - |r|..]
  {
    if |s| <= n then s else s[|s| - n..]
  }

  /** `tailLines`: the last `maxLines` lines of the trimmed text (every line
      when `maxLines` is 0, since `slice(-0)` keeps all), joined by line
      feeds; empty for blank text. */
  function TailLines(text: string, maxLines: nat): (r: string)
    ensures r == "" <==> IsJsBlank(text)
  {
    var trimmed := JsTrim(text);
    JsTrimSpec(text);
    if trimmed == "" then ""
    else
      var lines := SplitLines(trimmed);
      var from := if maxLines == 0 || maxLines >= |lines| then 0 else |lines| - maxLines;
      LastLineNonEmpty(trimmed);
      JoinEndsWith(lines[from..], "\n");
      Join(lines[from..], "\n")
  }

  /** The last line of text that does not end in whitespace is not empty. */
  lemma LastLineNonEmpty(s: string)
    requires s != [] && !IsJsWhitespace(s[|s| - 1])
    ensures SplitLines(s)[|SplitLines(s)| - 1] != []
  {
    var parts := Split(s, '\n');
    assert SplitLines(s)[|parts| - 1] == parts[|parts| - 1];
    if |parts| >= 2 {
      JoinEndsWithSep(parts, "\n");
    }
  }

  /** Joining two or more parts ends with the separator and the last part. */
  lemma {:induction false} JoinEndsWithSep(parts: seq<string>, sep: string)
    requires |parts| >= 2
    ensures EndsWith(Join(parts, sep), sep + parts[|parts| - 1])
    decreases |parts|
  {
    if |parts| > 2 {
      var rest := Join(parts[1..], sep);
      JoinEndsWithSep(parts[1..], sep);
      var suffix := sep + parts[|parts| - 1];
      assert Join(parts, sep) == (parts[0] + sep) + rest;
      assert rest[|rest| - |suffix|..] == suffix;
    }
  }

  lemma {:induction false} JoinEndsWith(parts: seq<string>, sep: string)
    requires parts != []
    ensures EndsWith(Join(parts, sep), parts[|parts| - 1])
    decreases |parts|
  {
    if |parts| > 1 {
      JoinEndsWith(parts[1..], sep);
    }
  }

  /** Splitting the tail on line feeds gives back exactly the last
      `maxLines` lines of the trimmed text. */
  lemma TailLinesAreLastLines(text: string, maxLines: nat)
    requires !IsJsBlank(text)
    ensures var lines := SplitLines(JsTrim(text));
      var n := if maxLines == 0 || maxLines >= |lines| then |lines| else maxLines;
      Split(TailLines(text, maxLines), '\n') == lines[|lines| - n..]
  {
    var lines := SplitLines(JsTrim(text));
    var from := if maxLines == 0 || maxLines >= |lines| then 0 else |lines| - maxLines;
    SplitJoin(lines[from..], '\n');
  }

  /** A headline followed, on the next lines, by the details when there are any. */
  function WithDetails(headline: string, details: string): string {
    if details == "" then headline else headline + "\n" + details
  }

  /** `Insights timed out after 70s`, rounding the limit to seconds. */
  function TimeoutMessage(details: string): string {
    WithDetails("Insights timed out after " + NatToString(MaxSessionMs / 1000) + "s", details)
  }

  /** `${code}` of a close code, `null` when the process was killed by a signal. */
  function CodeText(code: Option<int>): string {
    if code.None? then "null" else IntToString(code.value)
  }

  function ExitMessage(code: Option<int>, details: string): string {
    WithDetails("Process exited with code " + CodeText(code), details)
  }

  lemma TimeoutMessageValue()
    ensures TimeoutMessage("") == "Insights timed out after 70s"
  {
    assert NatToString(7) == "7";
    assert NatToString(70) == NatToString(7) + [DigitChar(0)];
  }

  // ---------------------------------------------------------------------
  // The argument vector

  datatype ModelConfig = ModelConfig(model: string, thinkingLevel: string)

  /** `MODEL_ID_MAP` (auto-claude-ui/src/shared/constants/models.ts). */
  const ModelIdMap: map<string, string> := map[
    "opus" := "claude-opus-4-5-20251101",
    "sonnet" := "claude-sonnet-4-5-20250929",
    "haiku" := "claude-haiku-4-5-20251001"]

  /** A known model's id; any other name falls back to sonnet's. */
  function ModelId(model: string): (id: string)
    ensures id in ModelIdMap.Values
    ensures model in ModelIdMap ==> id == ModelIdMap[model]
    ensures model !in ModelIdMap ==> id == "claude-sonnet-4-5-20250929"
  {
    if model in ModelIdMap then ModelIdMap[model] else ModelIdMap["sonnet"]
  }

  function RunnerPath(source: string): string {
    NodePathJoin(NodePathJoin(source, "runners"), "insights_runner.py")
  }

  function HistoryFile(tmpdir: string, projectId: string, now: int): string {
    NodePathJoin(tmpdir, "insights-history-" + projectId + "-" + IntToString(now) + ".json")
  }

  /** History files written at different times have different names. */
  lemma HistoryFileDistinct(tmpdir: string, projectId: string, t1: int, t2: int)
    ensures HistoryFile(tmpdir, projectId, t1) == HistoryFile(tmpdir, projectId, t2) ==> t1 == t2
  {
    var prefix := tmpdir + "/" + ("insights-history-" + projectId + "-");
    var s1 := IntToString(t1);
    var s2 := IntToString(t2);
    assert HistoryFile(tmpdir, projectId, t1) == prefix + s1 + ".json";
    assert HistoryFile(tmpdir, projectId, t2) == prefix + s2 + ".json";
    if prefix + s1 + ".json" == prefix + s2 + ".json" {
      assert s1 == (prefix + s1 + ".json")[|prefix|..|prefix| + |s1|];
      assert s2 == (prefix + s2 + ".json")[|prefix|..|prefix| + |s2|];
      IntToStringInjective(t1, t2);
    }
  }

  function BuildArgs(runnerPath: string, projectPath: string, message: string, historyFile: string,
                     modelConfig: Option<ModelConfig>): (args: seq<string>)
    ensures |args| == if modelConfig.Some? then 11 else 7
  {
    [runnerPath, "--project-dir", projectPath, "--message", message, "--history-file", historyFile]
    + match modelConfig
      case None => []
      case Some(mc) => ["--model", ModelId(mc.model), "--thinking-level", mc.thinkingLevel]
  }

  /** What the worker reads from its argument vector. */
  datatype RunnerInvocation = RunnerInvocation(
    runner: string, projectDir: string, message: string, historyFile: string,
    model: Option<(string, string)>)

  /** Reads the fixed-shape argument vector back, position by position. */
  function ParseRunnerArgs(args: seq<string>): Option<RunnerInvocation> {
    if (|args| == 7 || |args| == 11)
       && args[1] == "--project-dir" && args[3] == "--message" && args[5] == "--history-file"
    then
      if |args| == 7 then Some(RunnerInvocation(args[0], args[2], args[4], args[6], None))
      else if args[7] == "--model" && args[9] == "--thinking-level" then
        Some(RunnerInvocation(args[0], args[2], args[4], args[6], Some((args[8], args[10]))))
      else None
    else None
  }

  /** A positional reading of the argument vector gives back every value
      put into it, whatever the message holds, and the model id the map
      gives. */
  lemma BuildArgsRoundTrip(runnerPath: string, projectPath: string, message: string, historyFile: string,
                           modelConfig: Option<ModelConfig>)
    ensures ParseRunnerArgs(BuildArgs(runnerPath, projectPath, message, historyFile, modelConfig)) ==
      Some(RunnerInvocation(runnerPath, projectPath, message, historyFile,
        if modelConfig.Some? then Some((ModelId(modelConfig.value.model), modelConfig.value.thinkingLevel)) else None))
  {
  }

  // ---------------------------------------------------------------------
  // The executor

  /** The registry and its surroundings: `activeSessions` maps a project to
      the pid of its process, `kills` lists the pids killed in order,
      `tempFiles` are the temporary files written and not yet removed, and
      `emitted` the events `execute` itself emits. */
  class Executor {
    const config: InsightsConfig.Config
    var activeSessions: map<string, nat>
    var kills: seq<nat>
    var nextPid: nat
    var tempFiles: map<string, string>
    var emitted: seq<(string, Event)>

    /** Every registered process was spawned by this executor. */
    predicate Valid()
      reads this
    {
      forall p | p in activeSessions :: activeSessions[p] < nextPid
    }

    constructor (config: InsightsConfig.Config)
      ensures this.config == config && Valid()
      ensures activeSessions == map[] && kills == [] && tempFiles == map[] && emitted == []
    {
      this.config := config;
      activeSessions := map[];
      kills := [];
      nextPid := 0;
      tempFiles := map[];
      emitted := [];
    }

    /** `isSessionActive` */
    function IsSessionActive(projectId: string): (r: bool)
      reads this
      ensures r <==> projectId in activeSessions
    {
      projectId in activeSessions
    }

    /** `cancelSession`: kills and forgets the project's process; false and
        no change when there is none. */
    method CancelSession(projectId: string) returns (cancelled: bool)
      requires Valid()
      modifies this
      ensures Valid()
      ensures cancelled <==> old(IsSessionActive(projectId))
      ensures !IsSessionActive(projectId)
      ensures activeSessions == old(activeSessions) - {projectId}
      ensures kills == old(kills) + if cancelled then [old(activeSessions)[projectId]] else []
      ensures nextPid == old(nextPid) && tempFiles == old(tempFiles) && emitted == old(emitted)
    {
      if projectId !in activeSessions {
        return false;
      }
      var existing := activeSessions[projectId];
      kills := kills + [existing];
      activeSessions := activeSessions - {projectId};
      return true;
    }

    /** `execute`'s checks before spawning: the worker source directory,
        then its runner script. */
    method LocateRunner(host: InsightsConfig.Host) returns (r: Result<string, string>)
      ensures r == RunnerLocation(config.autoBuildSourcePath, host)
    {
      var autoBuildSource := config.GetAutoBuildSourcePath(host);
      if autoBuildSource.None? {
        return Err("Auto Claude source not found");
      }
      var runnerPath := RunnerPath(autoBuildSource.value);
      if runnerPath !in host.existing {
        return Err("insights_runner.py not found in auto-claude directory");
      }
      return Ok(autoBuildSource.value);
    }

    /** Writes the history file, spawns the worker and registers it under
        the project, replacing any entry. */
    method Launch(projectId: string, historyFile: string, historyJson: string,
                  command: string, args: seq<string>, cwd: string, env: map<string, string>)
      returns (s: Session)
      requires Valid()
      modifies this
      ensures Valid()
      ensures fresh(s) && s.Valid() && s.IsFresh() && s.exec == this && s.projectId == projectId
      ensures s.pid == old(nextPid) && s.historyFile == historyFile
      ensures s.command == command && s.args == args && s.cwd == cwd && s.env == env
      ensures activeSessions == old(activeSessions)[projectId := s.pid] && nextPid == old(nextPid) + 1
      ensures tempFiles == old(tempFiles)[historyFile := historyJson]
      ensures kills == old(kills) && emitted == old(emitted)
    {
      tempFiles := tempFiles[historyFile := historyJson];
      var pid := nextPid;
      nextPid := nextPid + 1;
      s := new Session(this, projectId, pid, historyFile, command, args, cwd, env);
      activeSessions := activeSessions[projectId := pid];
    }

    /** `execute` after the cancellation: fails when there is no worker
        source, no runner script in it, or the history file cannot be
        written (`historyWritable` is the outcome of that write); otherwise
        spawns and registers the process. */
    method StartSession(projectId: string, projectPath: string, message: string, historyJson: string,
                   modelConfig: Option<ModelConfig>, host: InsightsConfig.Host,
                   processEnv: map<string, string>, profileEnv: map<string, string>,
                   tmpdir: string, now: int, historyWritable: bool)
      returns (r: Result<Session, string>)
      requires Valid()
      modifies this
      ensures Valid()
      ensures kills == old(kills)
      ensures var located := RunnerLocation(config.autoBuildSourcePath, host);
        if located.Err? then r == Err(located.error)
        else if !historyWritable then r == Err("Failed to write conversation history to temp file")
        else r.Ok?
      ensures r.Err? ==> activeSessions == old(activeSessions) && nextPid == old(nextPid)
                         && tempFiles == old(tempFiles)
      ensures emitted == old(emitted) +
        if RunnerLocation(config.autoBuildSourcePath, host).Ok?
        then [(projectId, Status(Thinking(ThinkingMessage)))] else []
      ensures r.Ok? ==>
        var s := r.value;
        var source := RunnerLocation(config.autoBuildSourcePath, host).value;
        var historyFile := HistoryFile(tmpdir, projectId, now);
        fresh(s) && s.Valid() && s.IsFresh() && s.exec == this && s.projectId == projectId
        && s.pid == old(nextPid) && s.historyFile == historyFile
        && s.command == InsightsConfig.PythonPath(config.pythonPath, config.autoBuildSourcePath, host)
        && s.args == BuildArgs(RunnerPath(source), projectPath, message, historyFile, modelConfig)
        && s.cwd == source
        && s.env == InsightsConfig.MergeProcessEnv(processEnv, InsightsConfig.AutoBuildEnv(config.autoBuildSourcePath, host), profileEnv)
        && activeSessions == old(activeSessions)[projectId := old(nextPid)] && nextPid == old(nextPid) + 1
        && tempFiles == old(tempFiles)[historyFile := historyJson]
    {
      var located := LocateRunner(host);
      if located.Err? {
        return Err(located.error);
      }
      var source := located.value;

      emitted := emitted + [(projectId, Status(Thinking(ThinkingMessage)))];

      var spawnEnv := config.GetProcessEnv(host, processEnv, profileEnv);
      var historyFile := HistoryFile(tmpdir, projectId, now);
      if !historyWritable {
        return Err("Failed to write conversation history to temp file");
      }
      var args := BuildArgs(RunnerPath(source), projectPath, message, historyFile, modelConfig);
      var command := config.GetPythonPath(host);
      var session := Launch(projectId, historyFile, historyJson, command, args, source, spawnEnv);
      return Ok(session);
    }

    /** `execute`: cancels the project's running session first, then fails
        when there is no worker source, no runner script in it, or the
        history file cannot be written (`historyWritable` is the outcome of
        that write); otherwise spawns and registers the process. */
    method Execute(projectId: string, projectPath: string, message: string, historyJson: string,
                   modelConfig: Option<ModelConfig>, host: InsightsConfig.Host,
                   processEnv: map<string, string>, profileEnv: map<string, string>,
                   tmpdir: string, now: int, historyWritable: bool)
      returns (r: Result<Session, string>)
      requires Valid()
      modifies this
      ensures Valid()
      ensures kills == old(kills) + if projectId in old(activeSessions) then [old(activeSessions)[projectId]] else []
      ensures var located := RunnerLocation(config.autoBuildSourcePath, host);
        if located.Err? then r == Err(located.error)
        else if !historyWritable then r == Err("Failed to write conversation history to temp file")
        else r.Ok?
      ensures r.Err? ==> activeSessions == old(activeSessions) - {projectId} && nextPid == old(nextPid)
                         && tempFiles == old(tempFiles)
      ensures emitted == old(emitted) +
        if RunnerLocation(config.autoBuildSourcePath, host).Ok?
        then [(projectId, Status(Thinking(ThinkingMessage)))] else []
      ensures r.Ok? ==>
        var s := r.value;
        var source := RunnerLocation(config.autoBuildSourcePath, host).value;
        var historyFile := HistoryFile(tmpdir, projectId, now);
        fresh(s) && s.Valid() && s.IsFresh() && s.exec == this && s.projectId == projectId
        && s.pid == old(nextPid) && s.historyFile == historyFile
        && s.command == InsightsConfig.PythonPath(config.pythonPath, config.autoBuildSourcePath, host)
        && s.args == BuildArgs(RunnerPath(source), projectPath, message, historyFile, modelConfig)
        && s.cwd == source
        && s.env == InsightsConfig.MergeProcessEnv(processEnv, InsightsConfig.AutoBuildEnv(config.autoBuildSourcePath, host), profileEnv)
        && activeSessions == old(activeSessions)[projectId := old(nextPid)] && nextPid == old(nextPid) + 1
        && tempFiles == old(tempFiles)[historyFile := historyJson]
    {
      var _ := CancelSession(projectId);
      r := StartSession(projectId, projectPath, message, historyJson, modelConfig, host,
                        processEnv, profileEnv, tmpdir, now, historyWritable);
    }
  }

  /** Where `execute` finds the runner script: the worker source directory
      when it holds `runners/insights_runner.py`, or the error it throws. */
  function RunnerLocation(configuredSource: string, host: InsightsConfig.Host): (r: Result<string, string>)
    ensures r.Ok? <==> InsightsConfig.AutoBuildSource(configuredSource, host).Some?
                       && RunnerPath(InsightsConfig.AutoBuildSource(configuredSource, host).value) in host.existing
    ensures r.Ok? ==> r.value == InsightsConfig.AutoBuildSource(configuredSource, host).value
    ensures InsightsConfig.AutoBuildSource(configuredSource, host).None? ==> r == Err("Auto Claude source not found")
    ensures InsightsConfig.AutoBuildSource(configuredSource, host).Some? && r.Err? ==>
      r == Err("insights_runner.py not found in auto-claude directory")
  {
    match InsightsConfig.AutoBuildSource(configuredSource, host)
    case None => Err("Auto Claude source not found")
    case Some(source) =>
      if RunnerPath(source) in host.existing then Ok(source)
      else Err("insights_runner.py not found in auto-claude directory")
  }

  /** The state of one `execute` promise: its spawned process and the
      variables its callbacks share. `emitted` is what its callbacks emit,
      in order. */
  class Session {
    const exec: Executor
    const projectId: string
    const pid: nat
    const historyFile: string
    const command: string
    const args: seq<string>
    const cwd: string
    const env: map<string, string>

    var settled: bool
    var fullResponse: string
    var suggestedTask: Option<Json>
    var toolsUsed: seq<ToolUsage>
    var allInsightsOutput: string
    var timerArmed: bool
    var outcome: Option<Outcome>
    var emitted: seq<Event>
    /** Whether the process's `close` event has been delivered; Node emits
        no further event of the process after it. */
    var closed: bool

    /** The buffer stays within its bound. `settled` is set only by
        `emitErrorOnce`, so it means the promise was rejected; a promise
        resolved by `close` stays unsettled. The promise takes one outcome,
        announced by exactly one terminal chunk, after the timer stopped;
        the response text, the tool records and the suggested task are what
        the chunks announced. */
    predicate Valid()
      reads this
    {
      |allInsightsOutput| <= MaxOutputChars
      && (settled ==> outcome.Some? && outcome.value.Rejected?)
      && (outcome.Some? && !settled ==> closed)
      && (outcome.Some? ==> !timerArmed)
      && (closed ==> !timerArmed)
      && TerminalCount(emitted) == (if outcome.Some? then 1 else 0)
      && fullResponse == TextOf(emitted)
      && ToolCalls(toolsUsed) == ToolStartsOf(emitted)
      && suggestedTask == LastTask(emitted)
    }

    /** The state right after spawning. */
    predicate IsFresh()
      reads this
    {
      !settled && fullResponse == "" && suggestedTask.None? && toolsUsed == [] && allInsightsOutput == ""
      && timerArmed && outcome.None? && emitted == [] && !closed
    }

    constructor (exec: Executor, projectId: string, pid: nat, historyFile: string,
                 command: string, args: seq<string>, cwd: string, env: map<string, string>)
      ensures this.exec == exec && this.projectId == projectId && this.pid == pid
      ensures this.historyFile == historyFile && this.command == command && this.args == args
      ensures this.cwd == cwd && this.env == env
      ensures Valid() && IsFresh()
    {
      this.exec := exec;
      this.projectId := projectId;
      this.pid := pid;
      this.historyFile := historyFile;
      this.command := command;
      this.args := args;
      this.cwd := cwd;
      this.env := env;
      settled := false;
      fullResponse := "";
      suggestedTask := None;
      toolsUsed := [];
      allInsightsOutput := "";
      timerArmed := true;
      outcome := None;
      emitted := [];
      closed := false;
    }

    /** The part of the session the stdout handler changes. */
    function Streamed(): StreamState
      reads this
    {
      StreamState(emitted, fullResponse, toolsUsed, suggestedTask)
    }

    /** A stdout chunk: kept in the buffer, then split on line feeds on its
        own (a line cut by the chunk boundary is handled as two lines) and
        handled line by line; `times[i]` is the clock reading taken if line
        `i` starts a tool. */
    method OnStdout(text: string, parse: JsonParser, times: seq<int>)
      requires Valid() && |times| == |Split(text, '\n')|
      modifies this
      ensures Valid()
      ensures allInsightsOutput == KeepLast(old(allInsightsOutput) + text, MaxOutputChars)
      ensures Streamed() == Apply(old(Streamed()), Demux(Split(text, '\n'), parse, times))
      ensures settled == old(settled) && outcome == old(outcome) && timerArmed == old(timerArmed) && closed == old(closed)
    {
      allInsightsOutput := KeepLast(allInsightsOutput + text, MaxOutputChars);
      var lines := Split(text, '\n');
      HandleStdoutLines(lines, parse, times);
      DemuxSpec(lines, parse, times);
      ExtendValid(old(emitted), old(fullResponse), old(toolsUsed), old(suggestedTask), Demux(lines, parse, times));
    }

    /** The `for` loop over the lines of one chunk. */
    method HandleStdoutLines(lines: seq<string>, parse: JsonParser, times: seq<int>)
      requires |times| == |lines|
      modifies this
      ensures Streamed() == Apply(old(Streamed()), Demux(lines, parse, times))
      ensures settled == old(settled) && outcome == old(outcome) && timerArmed == old(timerArmed) && closed == old(closed)
      ensures allInsightsOutput == old(allInsightsOutput)
    {
      for i := 0 to |lines|
        invariant settled == old(settled) && outcome == old(outcome) && timerArmed == old(timerArmed) && closed == old(closed)
        invariant allInsightsOutput == old(allInsightsOutput)
        invariant Streamed() == Apply(old(Streamed()), Demux(lines[..i], parse, times[..i]))
      {
        DemuxStep(lines, i, parse, times);
        ApplyThen(old(Streamed()), Demux(lines[..i], parse, times[..i]), HandleLine(lines[i], parse, times[i]));
        HandleStdoutLine(lines[i], parse, times[i]);
      }
      assert lines[..|lines|] == lines && times[..|times|] == times;
    }

    /** One line of a stdout chunk: a task suggestion, a tool start or end
        marker, or plain text, in that order of checks. */
    method HandleStdoutLine(line: string, parse: JsonParser, now: int)
      modifies this
      ensures Streamed() == Apply(old(Streamed()), HandleLine(line, parse, now))
      ensures settled == old(settled) && outcome == old(outcome) && timerArmed == old(timerArmed) && closed == old(closed)
      ensures allInsightsOutput == old(allInsightsOutput)
    {
      if StartsWith(line, TaskSuggestionMarker) {
        var task := parse(line[|TaskSuggestionMarker|..]);
        if task.Some? {
          suggestedTask := task;
          emitted := emitted + [StreamChunkEvent(TaskSuggestion(task.value))];
        }
      } else if StartsWith(line, ToolStartMarker) {
        var toolData := parse(line[|ToolStartMarker|..]);
        if toolData.Some? && !toolData.value.JNull? {
          var name := PropertyValue(toolData.value, "name");
          var input := PropertyValue(toolData.value, "input");
          toolsUsed := toolsUsed + [ToolUsage(name, input, now)];
          emitted := emitted + [StreamChunkEvent(ToolStart(name, input))];
        }
      } else if StartsWith(line, ToolEndMarker) {
        var toolData := parse(line[|ToolEndMarker|..]);
        if toolData.Some? && !toolData.value.JNull? {
          emitted := emitted + [StreamChunkEvent(ToolEnd(PropertyValue(toolData.value, "name")))];
        }
      } else if !IsJsBlank(line) {
        fullResponse := fullResponse + line + "\n";
        emitted := emitted + [StreamChunkEvent(Text(line + "\n"))];
      }
    }

    /** A stderr chunk only feeds the buffer. */
    method OnStderr(text: string)
      requires Valid()
      modifies this
      ensures Valid()
      ensures allInsightsOutput == KeepLast(old(allInsightsOutput) + text, MaxOutputChars)
      ensures settled == old(settled) && outcome == old(outcome) && timerArmed == old(timerArmed) && closed == old(closed)
      ensures emitted == old(emitted) && fullResponse == old(fullResponse) && toolsUsed == old(toolsUsed)
      ensures suggestedTask == old(suggestedTask)
    {
      allInsightsOutput := KeepLast(allInsightsOutput + text, MaxOutputChars);
    }

    /** `emitErrorOnce`: only the first call emits and rejects; it is never
        reached once `close` has resolved the promise. */
    method EmitErrorOnce(error: string)
      requires Valid() && !timerArmed && (settled || outcome.None?)
      modifies this
      ensures Valid()
      ensures old(settled) ==> emitted == old(emitted) && outcome == old(outcome)
      ensures !old(settled) ==>
        (settled && outcome == Some(Rejected(error))
         && emitted == old(emitted) + [StreamChunkEvent(Error(error)), ErrorEvent(error)])
      ensures fullResponse == old(fullResponse) && toolsUsed == old(toolsUsed) && suggestedTask == old(suggestedTask)
      ensures allInsightsOutput == old(allInsightsOutput) && timerArmed == old(timerArmed) && closed == old(closed)
    {
      if settled {
        return;
      }
      settled := true;
      var events := [StreamChunkEvent(Error(error)), ErrorEvent(error)];
      TerminalPair(Error(error), ErrorEvent(error));
      EventsAppend(emitted, events);
      emitted := emitted + events;
      outcome := Some(Rejected(error));
    }

    /** The success path of `close`: `done`, then the `complete` status,
        and the promise resolves with the trimmed response; `settled` is
        left as it was. */
    method Resolve()
      requires Valid() && !settled && outcome.None? && closed
      modifies this
      ensures Valid() && !settled && closed
      ensures outcome == Some(Resolved(JsTrim(old(fullResponse)), old(suggestedTask), old(toolsUsed)))
      ensures emitted == old(emitted) + [StreamChunkEvent(Done), Status(Complete)]
      ensures fullResponse == old(fullResponse) && toolsUsed == old(toolsUsed) && suggestedTask == old(suggestedTask)
      ensures allInsightsOutput == old(allInsightsOutput) && timerArmed == old(timerArmed)
    {
      var events := [StreamChunkEvent(Done), Status(Complete)];
      TerminalPair(Done, Status(Complete));
      EventsAppend(emitted, events);
      emitted := emitted + events;
      outcome := Some(Resolved(JsTrim(fullResponse), suggestedTask, toolsUsed));
    }

    /** `handleRateLimit`: an `sdk-rate-limit` event when the detector
        recognises a rate limit in the buffer. */
    method HandleRateLimit(detectRateLimit: RateLimitDetector)
      requires Valid()
      modifies this
      ensures Valid()
      ensures emitted == old(emitted) +
        if detectRateLimit(allInsightsOutput) then [SdkRateLimit(allInsightsOutput)] else []
      ensures settled == old(settled) && outcome == old(outcome) && timerArmed == old(timerArmed) && closed == old(closed)
      ensures fullResponse == old(fullResponse) && toolsUsed == old(toolsUsed) && suggestedTask == old(suggestedTask)
      ensures allInsightsOutput == old(allInsightsOutput)
    {
      if detectRateLimit(allInsightsOutput) {
        NoChunk(SdkRateLimit(allInsightsOutput));
        EventsAppend(emitted, [SdkRateLimit(allInsightsOutput)]);
        emitted := emitted + [SdkRateLimit(allInsightsOutput)];
      }
    }

    /** Common to `close`, `error` and the timeout: the registry entry of
        the project goes, whoever it belongs to, and the history file is
        removed. */
    method Release()
      modifies exec
      ensures exec.activeSessions == old(exec.activeSessions) - {projectId}
      ensures exec.tempFiles == old(exec.tempFiles) - {historyFile}
      ensures exec.kills == old(exec.kills) && exec.nextPid == old(exec.nextPid) && exec.emitted == old(exec.emitted)
      ensures old(exec.Valid()) ==> exec.Valid()
    {
      exec.activeSessions := exec.activeSessions - {projectId};
      if historyFile in exec.tempFiles {
        exec.tempFiles := exec.tempFiles - {historyFile};
      }
    }

    /** The `close` event, delivered at most once. A failed exit (any code
        but 0, a signal included) is checked for a rate limit even after the
        session settled; only an unsettled session resolves (code 0, which
        leaves `settled` false) or rejects. */
    method OnClose(code: Option<int>, detectRateLimit: RateLimitDetector)
      requires Valid() && exec.Valid() && !closed
      modifies this, exec
      ensures Valid() && exec.Valid()
      ensures !exec.IsSessionActive(projectId) && historyFile !in exec.tempFiles
      ensures exec.activeSessions == old(exec.activeSessions) - {projectId}
      ensures exec.kills == old(exec.kills)
      ensures !timerArmed && closed && outcome.Some?
      ensures settled == (old(settled) || code != Some(0))
      ensures exec.tempFiles == old(exec.tempFiles) - {historyFile}
      ensures exec.nextPid == old(exec.nextPid) && exec.emitted == old(exec.emitted)
      ensures allInsightsOutput == old(allInsightsOutput) && fullResponse == old(fullResponse)
      ensures toolsUsed == old(toolsUsed) && suggestedTask == old(suggestedTask)
      ensures var rateLimit := if code != Some(0) && detectRateLimit(old(allInsightsOutput))
                               then [SdkRateLimit(old(allInsightsOutput))] else [];
        if old(settled) then
          emitted == old(emitted) + rateLimit && outcome == old(outcome)
        else if code == Some(0) then
          emitted == old(emitted) + [StreamChunkEvent(Done), Status(Complete)]
          && outcome == Some(Resolved(JsTrim(old(fullResponse)), old(suggestedTask), old(toolsUsed)))
        else
          var message := ExitMessage(code, TailLines(old(allInsightsOutput), TailLineCount));
          emitted == old(emitted) + rateLimit + [StreamChunkEvent(Error(message)), ErrorEvent(message)]
          && outcome == Some(Rejected(message))
    {
      timerArmed := false;
      closed := true;
      Release();
      if code != Some(0) {
        HandleRateLimit(detectRateLimit);
      }
      if settled {
        return;
      }
      if code == Some(0) {
        Resolve();
      } else {
        var details := TailLines(allInsightsOutput, TailLineCount);
        var error := ExitMessage(code, details);
        EmitErrorOnce(error);
      }
    }

    /** The `error` event: the process could not be spawned or failed. It
        does not follow `close`. */
    method OnError(message: string)
      requires Valid() && exec.Valid() && !closed
      modifies this, exec
      ensures Valid() && exec.Valid()
      ensures !exec.IsSessionActive(projectId) && historyFile !in exec.tempFiles
      ensures exec.activeSessions == old(exec.activeSessions) - {projectId}
      ensures exec.kills == old(exec.kills)
      ensures !timerArmed && settled && !closed
      ensures exec.tempFiles == old(exec.tempFiles) - {historyFile}
      ensures exec.nextPid == old(exec.nextPid) && exec.emitted == old(exec.emitted)
      ensures allInsightsOutput == old(allInsightsOutput) && fullResponse == old(fullResponse)
      ensures toolsUsed == old(toolsUsed) && suggestedTask == old(suggestedTask)
      ensures old(settled) ==> emitted == old(emitted) && outcome == old(outcome)
      ensures !old(settled) ==>
        (outcome == Some(Rejected(message))
         && emitted == old(emitted) + [StreamChunkEvent(Error(message)), ErrorEvent(message)])
    {
      timerArmed := false;
      Release();
      EmitErrorOnce(message);
    }

    /** The hard timeout: a timer that was cleared, or already fired, does
        nothing; otherwise the process is killed and the session rejects
        with the tail of its output. */
    method OnTimeout()
      requires Valid() && exec.Valid()
      modifies this, exec
      ensures Valid() && exec.Valid() && closed == old(closed)
      ensures exec.nextPid == old(exec.nextPid) && exec.emitted == old(exec.emitted)
      ensures allInsightsOutput == old(allInsightsOutput) && fullResponse == old(fullResponse)
      ensures toolsUsed == old(toolsUsed) && suggestedTask == old(suggestedTask)
      ensures !old(timerArmed) ==>
        emitted == old(emitted) && outcome == old(outcome) && settled == old(settled) && !timerArmed
        && exec.activeSessions == old(exec.activeSessions) && exec.kills == old(exec.kills)
        && exec.tempFiles == old(exec.tempFiles)
      ensures old(timerArmed) ==>
        var message := TimeoutMessage(TailLines(old(allInsightsOutput), TailLineCount));
        !timerArmed && settled && outcome == Some(Rejected(message))
        && emitted == old(emitted) + [StreamChunkEvent(Error(message)), ErrorEvent(message)]
        && exec.kills == old(exec.kills) + [pid]
        && exec.activeSessions == old(exec.activeSessions) - {projectId}
        && exec.tempFiles == old(exec.tempFiles) - {historyFile}
    {
      if !timerArmed {
        return;
      }
      timerArmed := false;
      var details := TailLines(allInsightsOutput, TailLineCount);
      var error := TimeoutMessage(details);
      exec.kills := exec.kills + [pid];
      Release();
      EmitErrorOnce(error);
    }
  }

  /** Two events that settle a session: a terminal chunk, then an event
      that is not a chunk. */
  lemma TerminalPair(chunk: StreamChunk, second: Event)
    requires (chunk.Done? || chunk.Error?) && !second.StreamChunkEvent?
    ensures var events := [StreamChunkEvent(chunk), second];
      TextOf(events) == "" && ToolStartsOf(events) == [] && LastTask(events).None? && TerminalCount(events) == 1
  {
    var first := [StreamChunkEvent(chunk)];
    assert first[..0] == [];
    NoChunk(second);
    EventsAppend(first, [second]);
    assert first + [second] == [StreamChunkEvent(chunk), second];
  }

  /** An event that is not a chunk announces nothing. */
  lemma NoChunk(event: Event)
    requires !event.StreamChunkEvent?
    ensures TextOf([event]) == "" && ToolStartsOf([event]) == [] && LastTask([event]).None? && TerminalCount([event]) == 0
  {
    assert [event][..0] == [];
  }

  /** Appending a consistent effect keeps the response text, the tool
      records and the suggested task in step with the chunks. */
  lemma ExtendValid(log: seq<Event>, text: string, tools: seq<ToolUsage>, task: Option<Json>, e: LineEffect)
    requires Consistent(e)
    requires text == TextOf(log) && ToolCalls(tools) == ToolStartsOf(log) && task == LastTask(log)
    ensures text + e.text == TextOf(log + e.events)
    ensures ToolCalls(tools + e.tools) == ToolStartsOf(log + e.events)
    ensures (if e.task.Some? then e.task else task) == LastTask(log + e.events)
    ensures TerminalCount(log + e.events) == TerminalCount(log)
  {
    EventsAppend(log, e.events);
    ToolCallsAppend(tools, e.tools);
  }

  /** A `close` arriving late from a cancelled process removes the registry
      entry of the session that replaced it, which is still running. */
  method LateCloseOfCancelledSession(config: InsightsConfig.Config, host: InsightsConfig.Host,
                                     projectId: string, projectPath: string, now: nat,
                                     detectRateLimit: RateLimitDetector)
    returns (exec: Executor, first: Session, second: Session)
    requires RunnerLocation(config.autoBuildSourcePath, host).Ok?
    ensures first.projectId == second.projectId == projectId && first.pid != second.pid
    ensures exec.kills == [first.pid]
    ensures !second.settled && second.timerArmed
    ensures !exec.IsSessionActive(projectId)
    ensures first.historyFile !in exec.tempFiles && second.historyFile in exec.tempFiles
  {
    exec := new Executor(config);
    var r1 := exec.Execute(projectId, projectPath, "first", "[]", None, host, map[], map[], "/tmp", now, true);
    first := r1.value;
    var r2 := exec.Execute(projectId, projectPath, "second", "[]", None, host, map[], map[], "/tmp", now + 1, true);
    second := r2.value;
    HistoryFileDistinct("/tmp", projectId, now, now + 1);
    first.OnClose(None, detectRateLimit);
  }
}
