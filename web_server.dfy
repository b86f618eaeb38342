/**
 * The console side of WebServer.java: the bounded history of captured
 * console lines, the per-byte line splitters installed on stdout and stderr,
 * the log-file watcher's line filter, and the `/api/console/history` and
 * `/api/console` replies. Wall-clock readings are parameters; the command
 * dispatcher is a function parameter.
 */
module WebConsole {
  import opened Base
  import opened JavaStrings
  import opened Json

  const MaxConsoleLines: nat := 1000
  /** Lines carrying this tag are the bridge's own messages and are never recorded. */
  const SelfTag: string := "[MetricsBridge]"
  /** The log watcher skips any line mentioning this name. */
  const WatcherTag: string := "MetricsBridge"
  const ErrorPrefix: string := "[ERROR] "

  /** The signed byte values an `OutputStream` receives from `write(byte[], int, int)`. */
  type JavaByte = b: int | -128 <= b < 128

  const LineFeed: int := 10
  const CarriageReturn: int := 13

  /** `(char) b`: the low 16 bits of the byte's int value, so negative bytes land in U+FF80..U+FFFF. */
  function CharOf(b: JavaByte): (c: char)
    ensures c as int == (b + 0x10000) % 0x10000
  {
    if b >= 0 then b as char else (b + 0x10000) as char
  }

  /** The timestamped form `addConsoleLine` stores. */
  function Stamp(time: string, line: string): string
  {
    "[" + time + "] " + line
  }

  /** The last `n` elements of `s` (all of `s` when shorter). */
  function KeepNewest(s: seq<string>, n: nat): (r: seq<string>)
    ensures |r| == Min(|s|, n)
    ensures r == s[|s| - |r|..]
  {
    if |s| <= n then s else s[|s| - n..]
  }

  /** The history after `addConsoleLine(line)` at time of day `time`. */
  function WithLine(history: seq<string>, line: string, time: string): (r: seq<string>)
    ensures Contains(line, SelfTag) ==> r == history
    ensures !Contains(line, SelfTag) ==>
              && |r| == Min(|history| + 1, MaxConsoleLines)
              && r[|r| - 1] == Stamp(time, line)
              && r[..|r| - 1] == history[|history| + 1 - |r|..]
    ensures |history| <= MaxConsoleLines ==> |r| <= MaxConsoleLines
  {
    if Contains(line, SelfTag) then history
    else
      var r := KeepNewest(history + [Stamp(time, line)], MaxConsoleLines);
      assert r[..|r| - 1] == (history + [Stamp(time, line)])[|history| + 1 - |r|..|history|];
      r
  }

  /** The splitter's pending text after one byte, and the line it hands on, if any. */
  datatype Split = Split(pending: string, line: Option<string>)

  /** One call of the stream's `write(int)`. */
  function Step(pending: string, b: JavaByte): Split
  {
    if b == LineFeed then
      var line := Trim(pending);
      Split([], if line == [] then None else Some(line))
    else if b == CarriageReturn then Split(pending, None)
    else Split(pending + [CharOf(b)], None)
  }

  /** The lines handed on while writing `bs`, and the text left pending. */
  datatype Output = Output(lines: seq<string>, pending: string)

  function Lines(pending: string, bs: seq<JavaByte>): Output
    decreases |bs|
  {
    if bs == [] then Output([], pending)
    else
      var s := Step(pending, bs[0]);
      var rest := Lines(s.pending, bs[1..]);
      Output((if s.line.Some? then [s.line.value] else []) + rest.lines, rest.pending)
  }

  /** The chars a run of bytes adds to the pending text: every byte but '\r'. */
  function Text(bs: seq<JavaByte>): string
    decreases |bs|
  {
    if bs == [] then []
    else (if bs[0] == CarriageReturn then [] else [CharOf(bs[0])]) + Text(bs[1..])
  }

  predicate NoLineFeed(bs: seq<JavaByte>)
  {
    forall i :: 0 <= i < |bs| ==> bs[i] != LineFeed
  }

  /** Without a '\n' nothing is handed on; the bytes other than '\r' accumulate. */
  lemma {:induction false} LinesOfFragment(pending: string, bs: seq<JavaByte>)
    requires NoLineFeed(bs)
    ensures Lines(pending, bs) == Output([], pending + Text(bs))
    decreases |bs|
  {
    if bs != [] {
      var s := Step(pending, bs[0]);
      assert bs[0] != LineFeed;
      assert s.line == None;
      LinesOfFragment(s.pending, bs[1..]);
      assert Lines(pending, bs) == Lines(s.pending, bs[1..]);
      assert s.pending + Text(bs[1..]) == pending + Text(bs);
    }
  }

  /** Writing two chunks one after the other is writing their concatenation. */
  lemma {:induction false} LinesOfConcat(pending: string, a: seq<JavaByte>, b: seq<JavaByte>)
    ensures var first := Lines(pending, a);
            var second := Lines(first.pending, b);
            Lines(pending, a + b) == Output(first.lines + second.lines, second.pending)
    decreases |a|
  {
    if a == [] {
      assert a + b == b;
    } else {
      assert (a + b)[1..] == a[1..] + b;
      LinesOfConcat(Step(pending, a[0]).pending, a[1..], b);
    }
  }

  /** A '\n' hands on the trimmed pending text, unless it is blank, and empties the buffer. */
  lemma LinesOfLine(pending: string, bs: seq<JavaByte>)
    requires NoLineFeed(bs)
    ensures var text := pending + Text(bs);
            Lines(pending, bs + [LineFeed as JavaByte]) ==
              Output(if IsBlank(text) then [] else [Trim(text)], [])
  {
    var text := pending + Text(bs);
    LinesOfConcat(pending, bs, [LineFeed as JavaByte]);
    LinesOfFragment(pending, bs);
    var last := Lines(text, [LineFeed as JavaByte]);
    assert Lines([], []) == Output([], []);
    assert last == Output(if IsBlank(text) then [] else [Trim(text)], []);
  }

  /** The log watcher's filter: non-blank lines that do not mention the bridge. */
  predicate WatcherKeeps(line: string)
  {
    !IsBlank(line) && !Contains(line, WatcherTag)
  }

  /** A line carrying the self tag also mentions the bridge's name, so the watcher drops it first. */
  lemma SelfTagMentionsName(line: string)
    ensures Contains(line, SelfTag) ==> Contains(line, WatcherTag)
  {
    if Contains(line, SelfTag) {
      ContainsInfix(line, SelfTag, 1, 14);
      assert SelfTag[1..14] == WatcherTag;
    }
  }

  /** Every line the watcher keeps reaches the history. */
  lemma WatchedLinesAreRecorded(history: seq<string>, line: string, time: string)
    requires WatcherKeeps(line)
    ensures WithLine(history, line, time) == KeepNewest(history + [Stamp(time, line)], MaxConsoleLines)
  {
    SelfTagMentionsName(line);
  }

  /** The history as a JSON array of strings, in the same order. */
  function JsonLines(lines: seq<string>): (r: seq<JsonValue>)
    ensures |r| == |lines|
    ensures forall i :: 0 <= i < |lines| ==> r[i] == JStr(lines[i])
  {
    seq(|lines|, i requires 0 <= i < |lines| => JStr(lines[i]))
  }

  class ConsoleCapture {
    /** consoleOutput, oldest first. */
    var consoleOutput: seq<string>
    /** The lineBuffer of the stdout and of the stderr interceptor. */
    var stdoutLine: string
    var stderrLine: string

    constructor ()
      ensures consoleOutput == [] && stdoutLine == [] && stderrLine == []
    {
      consoleOutput := [];
      stdoutLine := [];
      stderrLine := [];
    }

    /** `addConsoleLine`: append the stamped line, then evict from the front while over the limit. */
    method AddConsoleLine(line: string, time: string)
      modifies this
      ensures consoleOutput == WithLine(old(consoleOutput), line, time)
      ensures stdoutLine == old(stdoutLine) && stderrLine == old(stderrLine)
    {
      if Contains(line, SelfTag) {
        return;
      }
      var stamped := Stamp(time, line);
      ghost var full := consoleOutput + [stamped];
      consoleOutput := consoleOutput + [stamped];
      while |consoleOutput| > MaxConsoleLines
        invariant |consoleOutput| <= |full|
        invariant consoleOutput == full[|full| - |consoleOutput|..]
        invariant |consoleOutput| >= MaxConsoleLines || consoleOutput == full
        invariant stdoutLine == old(stdoutLine) && stderrLine == old(stderrLine)
      {
        consoleOutput := consoleOutput[1..];
      }
    }

    /** `write(int)` of the stdout interceptor (the echo to the real stream is not modelled). */
    method WriteOut(b: JavaByte, time: string)
      modifies this
      ensures var s := Step(old(stdoutLine), b);
              && stdoutLine == s.pending
              && stderrLine == old(stderrLine)
              && consoleOutput == if s.line.Some? then WithLine(old(consoleOutput), s.line.value, time)
                                  else old(consoleOutput)
    {
      if b == LineFeed {
        var line := Trim(stdoutLine);
        if line != [] {
          AddConsoleLine(line, time);
        }
        stdoutLine := [];
      } else if b != CarriageReturn {
        stdoutLine := stdoutLine + [CharOf(b)];
      }
    }

    /** `write(int)` of the stderr interceptor: as stdout, with "[ERROR] " before each line. */
    method WriteErr(b: JavaByte, time: string)
      modifies this
      ensures var s := Step(old(stderrLine), b);
              && stderrLine == s.pending
              && stdoutLine == old(stdoutLine)
              && consoleOutput == if s.line.Some? then WithLine(old(consoleOutput), ErrorPrefix + s.line.value, time)
                                  else old(consoleOutput)
    {
      if b == LineFeed {
        var line := Trim(stderrLine);
        if line != [] {
          AddConsoleLine(ErrorPrefix + line, time);
        }
        stderrLine := [];
      } else if b != CarriageReturn {
        stderrLine := stderrLine + [CharOf(b)];
      }
    }

    /** One line read by the log-file watcher. */
    method WatchLogLine(line: string, time: string)
      modifies this
      ensures consoleOutput == if WatcherKeeps(line) then KeepNewest(old(consoleOutput) + [Stamp(time, line)], MaxConsoleLines)
                               else old(consoleOutput)
      ensures stdoutLine == old(stdoutLine) && stderrLine == old(stderrLine)
    {
      if !IsBlank(line) && !Contains(line, WatcherTag) {
        WatchedLinesAreRecorded(consoleOutput, line, time);
        AddConsoleLine(line, time);
      }
    }

    /** The `/api/console/history` reply at clock reading `now`. */
    function History(now: int): (reply: map<string, JsonValue>)
      reads this
      ensures reply.Keys == {"console_output", "timestamp", "total_lines"}
      ensures reply["console_output"] == JArray(JsonLines(consoleOutput))
      ensures reply["total_lines"] == JInt(|reply["console_output"].items|)
    {
      map["console_output" := JArray(JsonLines(consoleOutput)),
          "timestamp" := JInt(now),
          "total_lines" := JInt(|consoleOutput|)]
    }
  }

  /** The request body of `/api/console`: unreadable JSON, or the value of its "command" key. */
  datatype CommandRequest = Unreadable(message: string) | Request(command: Option<string>)

  /** What the dispatcher did with the command: returned a result code, or threw. */
  datatype DispatchResult = Returned(code: int) | Threw(message: string)

  function ErrorReply(message: string): map<string, JsonValue>
  {
    map["success" := JBool(false), "error" := JStr(message)]
  }

  predicate Succeeded(reply: map<string, JsonValue>)
  {
    "success" in reply && reply["success"] == JBool(true)
  }

  /** A non-blank command reached an available server and the dispatcher returned a code. */
  predicate Dispatched(request: CommandRequest, serverAvailable: bool, dispatch: string -> DispatchResult)
  {
    && request.Request? && request.command.Some? && !IsBlank(request.command.value)
    && serverAvailable && dispatch(request.command.value).Returned?
  }

  /** The `/api/console` reply; `serverAvailable` is whether the server supplier gave a server. */
  function ConsoleReply(request: CommandRequest, serverAvailable: bool, dispatch: string -> DispatchResult)
    : (reply: map<string, JsonValue>)
    ensures "success" in reply && reply["success"].JBool?
    ensures "error" in reply <==> !Dispatched(request, serverAvailable, dispatch)
    ensures "error" in reply ==> reply.Keys == {"success", "error"} && reply["success"] == JBool(false)
    ensures request.Unreadable? ==> reply["error"] == JStr("Error executing command: " + request.message)
    ensures Dispatched(request, serverAvailable, dispatch) ==>
              var code := dispatch(request.command.value).code;
              && reply.Keys == {"success", "output", "result"}
              && reply["result"] == JInt(code)
              && (reply["success"] == JBool(true) <==> code > 0)
  {
    match request
    case Unreadable(message) => ErrorReply("Error executing command: " + message)
    case Request(command) =>
      if command.None? || IsBlank(command.value) then ErrorReply("No command provided")
      else if !serverAvailable then ErrorReply("Server not available")
      else
        match dispatch(command.value)
        case Threw(message) => ErrorReply("Error executing command: " + message)
        case Returned(code) =>
          map["success" := JBool(code > 0),
              "output" := JStr(if code > 0 then "Command executed successfully" else "Command failed or returned 0"),
              "result" := JInt(code)]
  }

  /** A missing or blank command is refused before the dispatcher is consulted. */
  lemma BlankCommandNeverDispatched(command: Option<string>, serverAvailable: bool,
                                    d1: string -> DispatchResult, d2: string -> DispatchResult)
    requires command.None? || IsBlank(command.value)
    ensures ConsoleReply(Request(command), serverAvailable, d1) == ConsoleReply(Request(command), serverAvailable, d2)
    ensures ConsoleReply(Request(command), serverAvailable, d1) == ErrorReply("No command provided")
  {
  }

  /** The reply reports success exactly when a non-blank command reached the dispatcher and it returned a positive code. */
  lemma SuccessIffPositiveResult(request: CommandRequest, serverAvailable: bool, dispatch: string -> DispatchResult)
    ensures Succeeded(ConsoleReply(request, serverAvailable, dispatch)) <==>
              && request.Request? && request.command.Some? && !IsBlank(request.command.value)
              && serverAvailable
              && dispatch(request.command.value).Returned?
              && dispatch(request.command.value).code > 0
  {
  }
}
