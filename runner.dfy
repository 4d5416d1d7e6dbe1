/**
 * The sub-process runner (nerve/runner.py, and its copy in
 * nerve/server/runner.py that takes an `Arguments` record): the command line
 * for a child `nerve run`, which moves the task out of the caller's input
 * state; the scan of the child's trace events for its output object; and the
 * fallback to the child's own output lines.
 */
module Runner {
  import opened Wrappers
  import opened Strings
  import opened PyValues

  // ---------------------------------------------------------------------------
  // Command line

  /**
   * The parameters of `_create_command_line`. `maxCost` is a float in the
   * source and is carried here as its `str` rendering.
   */
  datatype RunOptions = RunOptions(
    inputPath: string,
    generator: string,
    conversation: string,
    maxSteps: int,
    maxCost: string,
    timeout: Option<int>,
    quiet: bool)

  /** `if timeout:` on an `int | None`. */
  predicate TimeoutSet(timeout: Option<int>) {
    timeout.Some? && timeout.value != 0
  }

  /** The dict a caller passes in and sees changed: the runner's input state. */
  class InputState {
    var entries: map<string, string>

    constructor(entries0: map<string, string>)
      ensures entries == entries0
    {
      entries := entries0;
    }
  }

  /** The fixed eleven leading arguments. */
  function CommandPrefix(bin: string, o: RunOptions): seq<string> {
    [bin, "run", o.inputPath, "--generator", o.generator, "--conversation", o.conversation,
     "--max-steps", IntToString(o.maxSteps), "--max-cost", o.maxCost]
  }

  function TimeoutArgs(o: RunOptions): seq<string> {
    if TimeoutSet(o.timeout) then ["--timeout", IntToString(o.timeout.value)] else []
  }

  function QuietArgs(o: RunOptions): seq<string> {
    if o.quiet then ["--quiet"] else []
  }

  function TaskArgs(state: map<string, string>): seq<string> {
    if "task" in state then ["--task", state["task"]] else []
  }

  /**
   * The whole command line for input state `state` (before the task is moved
   * out of it). `dumps` stands for `json.dumps`.
   */
  function CommandLine(bin: string, o: RunOptions, state: map<string, string>,
                       dumps: map<string, string> -> string, eventsFile: string): (cmd: seq<string>)
    ensures |cmd| == 15 + (if TimeoutSet(o.timeout) then 2 else 0) + (if o.quiet then 1 else 0)
                         + (if "task" in state then 2 else 0)
    ensures cmd[0] == bin && cmd[1] == "run" && cmd[2] == o.inputPath
    ensures cmd[|cmd| - 4..] == ["--start-state", dumps(state - {"task"}), "--trace", eventsFile]
  {
    CommandPrefix(bin, o) + TimeoutArgs(o) + QuietArgs(o) + TaskArgs(state)
      + ["--start-state", dumps(state - {"task"}), "--trace", eventsFile]
  }

  /**
   * `_create_command_line`: builds the command and deletes `task` from the
   * caller's input state, leaving every other key as it was.
   */
  method CreateCommandLine(bin: string, o: RunOptions, state: InputState,
                           dumps: map<string, string> -> string, eventsFile: string)
    returns (cmd: seq<string>)
    modifies state
    ensures cmd == CommandLine(bin, o, old(state.entries), dumps, eventsFile)
    ensures state.entries == old(state.entries) - {"task"}
  {
    cmd := [bin, "run", o.inputPath, "--generator", o.generator, "--conversation", o.conversation,
            "--max-steps", IntToString(o.maxSteps), "--max-cost", o.maxCost];
    if TimeoutSet(o.timeout) {
      cmd := cmd + ["--timeout", IntToString(o.timeout.value)];
    }
    if o.quiet {
      cmd := cmd + ["--quiet"];
    }
    assert cmd == CommandPrefix(bin, o) + TimeoutArgs(o) + QuietArgs(o);
    if "task" in state.entries {
      cmd := cmd + ["--task", state.entries["task"]];
      state.entries := state.entries - {"task"};
    }
    assert cmd == CommandPrefix(bin, o) + TimeoutArgs(o) + QuietArgs(o) + TaskArgs(old(state.entries));
    cmd := cmd + ["--start-state", dumps(state.entries)];
    cmd := cmd + ["--trace", eventsFile];
    assert state.entries == old(state.entries) - {"task"};
  }

  /** What can be read back from a runner command line, as text. */
  datatype ParsedCommand = ParsedCommand(
    bin: string,
    inputPath: string,
    generator: string,
    conversation: string,
    maxSteps: string,
    maxCost: string,
    timeout: Option<string>,
    quiet: bool,
    task: Option<string>,
    startState: string,
    trace: string)

  /** Reads the optional `--timeout`, `--quiet` and `--task` arguments, in that order. */
  function ParseOptionalArgs(mid: seq<string>): Option<(Option<string>, bool, Option<string>)> {
    var (timeout, m1) := if |mid| >= 2 && mid[0] == "--timeout" then (Some(mid[1]), mid[2..]) else (None, mid);
    var (quiet, m2) := if |m1| >= 1 && m1[0] == "--quiet" then (true, m1[1..]) else (false, m1);
    if m2 == [] then Some((timeout, quiet, None))
    else if |m2| == 2 && m2[0] == "--task" then Some((timeout, quiet, Some(m2[1])))
    else None
  }

  /** The inverse of `CommandLine`: splits a command into its fields, `None` when it has the wrong shape. */
  function ParseCommandLine(cmd: seq<string>): Option<ParsedCommand> {
    if |cmd| < 15 || cmd[1] != "run" || cmd[3] != "--generator" || cmd[5] != "--conversation"
       || cmd[7] != "--max-steps" || cmd[9] != "--max-cost"
       || cmd[|cmd| - 4] != "--start-state" || cmd[|cmd| - 2] != "--trace" then None
    else
      match ParseOptionalArgs(cmd[11..|cmd| - 4])
      case None => None
      case Some((timeout, quiet, task)) =>
        Some(ParsedCommand(cmd[0], cmd[2], cmd[4], cmd[6], cmd[8], cmd[10], timeout, quiet, task,
                           cmd[|cmd| - 3], cmd[|cmd| - 1]))
  }

  /** What every field of a command line is, as `CommandLine` renders it. */
  function Expected(bin: string, o: RunOptions, state: map<string, string>,
                    dumps: map<string, string> -> string, eventsFile: string): ParsedCommand {
    ParsedCommand(bin, o.inputPath, o.generator, o.conversation, IntToString(o.maxSteps), o.maxCost,
                  if TimeoutSet(o.timeout) then Some(IntToString(o.timeout.value)) else None,
                  o.quiet,
                  if "task" in state then Some(state["task"]) else None,
                  dumps(state - {"task"}), eventsFile)
  }

  /** The optional part reads back as the flags and task it was built from. */
  lemma ParseOptionalArgsRoundTrip(o: RunOptions, state: map<string, string>)
    ensures ParseOptionalArgs(TimeoutArgs(o) + QuietArgs(o) + TaskArgs(state))
         == Some((if TimeoutSet(o.timeout) then Some(IntToString(o.timeout.value)) else None,
                  o.quiet,
                  if "task" in state then Some(state["task"]) else None))
  {
    var t, q, k := TimeoutArgs(o), QuietArgs(o), TaskArgs(state);
    var mid := t + q + k;
    var m1 := if |mid| >= 2 && mid[0] == "--timeout" then mid[2..] else mid;
    assert m1 == q + k;
    var m2 := if |m1| >= 1 && m1[0] == "--quiet" then m1[1..] else m1;
    assert m2 == k;
  }

  /**
   * Every field of the command line is recovered from it: the prefix values,
   * the timeout exactly when it is truthy, the quiet flag, the task exactly
   * when the state had one, the dumped state without the task, and the
   * events file.
   */
  lemma CommandLineRoundTrip(bin: string, o: RunOptions, state: map<string, string>,
                             dumps: map<string, string> -> string, eventsFile: string)
    ensures ParseCommandLine(CommandLine(bin, o, state, dumps, eventsFile)) == Some(Expected(bin, o, state, dumps, eventsFile))
  {
    var p := CommandPrefix(bin, o);
    var mid := TimeoutArgs(o) + QuietArgs(o) + TaskArgs(state);
    var tail := ["--start-state", dumps(state - {"task"}), "--trace", eventsFile];
    assert CommandLine(bin, o, state, dumps, eventsFile) == p + mid + tail;
    ParseOptionalArgsRoundTrip(o, state);
    ParseThreeParts(p, mid, tail);
  }

  /** The command splits into its prefix, its optional part and its last four arguments. */
  lemma ParseThreeParts(p: seq<string>, mid: seq<string>, tail: seq<string>)
    requires |p| == 11 && p[1] == "run" && p[3] == "--generator" && p[5] == "--conversation"
    requires p[7] == "--max-steps" && p[9] == "--max-cost"
    requires |tail| == 4 && tail[0] == "--start-state" && tail[2] == "--trace"
    requires ParseOptionalArgs(mid).Some?
    ensures var (timeout, quiet, task) := ParseOptionalArgs(mid).value;
      ParseCommandLine(p + mid + tail)
        == Some(ParsedCommand(p[0], p[2], p[4], p[6], p[8], p[10], timeout, quiet, task, tail[1], tail[3]))
  {
    var cmd := p + mid + tail;
    assert cmd[..11] == p;
    assert cmd[11..|cmd| - 4] == mid;
    assert cmd[|cmd| - 4..] == tail;
  }

  /** The fields of the server's `Arguments` record. */
  datatype Arguments = Arguments(
    inputPath: string,
    task: Option<string>,
    generator: string,
    conversationStrategy: string,
    interactive: bool,
    debug: bool,
    litellmDebug: bool,
    quiet: bool,
    maxSteps: int,
    maxCost: string,
    timeout: Option<int>,
    logPath: Option<string>,
    trace: Option<string>,
    startState: map<string, PyValue>)

  /** The fields of `run_args` the server's `_create_command_line` reads. */
  function OptionsOf(args: Arguments): (o: RunOptions)
    ensures o.inputPath == args.inputPath && o.generator == args.generator
    ensures o.conversation == args.conversationStrategy
    ensures o.maxSteps == args.maxSteps && o.maxCost == args.maxCost
    ensures o.timeout == args.timeout && o.quiet == args.quiet
  {
    RunOptions(args.inputPath, args.generator, args.conversationStrategy, args.maxSteps, args.maxCost,
               args.timeout, args.quiet)
  }

  /**
   * The server's `_create_command_line`: the same command built from
   * `run_args`; the record's own `task` and `start_state` are not consulted.
   */
  method CreateServerCommandLine(bin: string, args: Arguments, state: InputState,
                                 dumps: map<string, string> -> string, eventsFile: string)
    returns (cmd: seq<string>)
    modifies state
    ensures cmd == CommandLine(bin, OptionsOf(args), old(state.entries), dumps, eventsFile)
    ensures state.entries == old(state.entries) - {"task"}
  {
    cmd := CreateCommandLine(bin, OptionsOf(args), state, dumps, eventsFile);
  }

  // ---------------------------------------------------------------------------
  // Trace events

  /** `event["name"] == name` evaluated without error and true. */
  predicate NamedAs(e: PyValue, name: string) {
    GetItem(e, "name") == Ok(PyStr(name))
  }

  /** `event["name"]` evaluates and differs from `name`. */
  predicate NamedOtherThan(e: PyValue, name: string) {
    GetItem(e, "name").Ok? && GetItem(e, "name").value != PyStr(name)
  }

  /**
   * `_get_last_event_with_name`: the scan from the end; an event without a
   * `name` key stops it with the `KeyError`.
   */
  function LastEventWithName(events: seq<PyValue>, name: string): (r: Result<Option<PyValue>, PyError>)
    ensures r.Ok? && r.value.Some? ==> r.value.value in events && NamedAs(r.value.value, name)
    decreases |events|
  {
    if events == [] then Ok(None)
    else
      var e := events[|events| - 1];
      match GetItem(e, "name")
      case Err(err) => Err(err)
      case Ok(v) => if v == PyStr(name) then Ok(Some(e)) else LastEventWithName(events[..|events| - 1], name)
  }

  /** Every event after index `i` is named, and named otherwise than `name`. */
  ghost predicate OtherNamesAfter(events: seq<PyValue>, i: int, name: string) {
    forall j :: 0 <= j < |events| && i < j ==> NamedOtherThan(events[j], name)
  }

  /**
   * The scan for `name` stops at event `i` with result `r`: `i` is the last
   * event not named otherwise, and `r` is that event when it has the name,
   * or the error raised reading its name.
   */
  ghost predicate StopsAt(events: seq<PyValue>, i: int, name: string, r: Result<Option<PyValue>, PyError>) {
    && 0 <= i < |events|
    && OtherNamesAfter(events, i, name)
    && (|| (NamedAs(events[i], name) && r == Ok(Some(events[i])))
        || (GetItem(events[i], "name").Err? && r == Err(GetItem(events[i], "name").error)))
  }

  /**
   * The scan finds nothing exactly when every event is named otherwise;
   * otherwise it stops at the last event that is not, returning it when it
   * carries the name and failing when its name cannot be read.
   */
  lemma {:induction false} LastEventWithNameSpec(events: seq<PyValue>, name: string)
    ensures LastEventWithName(events, name) == Ok(None) <==> OtherNamesAfter(events, -1, name)
    ensures LastEventWithName(events, name) != Ok(None) ==>
      exists i :: StopsAt(events, i, name, LastEventWithName(events, name))
    decreases |events|
  {
    if events != [] {
      var init := events[..|events| - 1];
      var last := |events| - 1;
      var r := LastEventWithName(events, name);
      LastEventWithNameSpec(init, name);
      assert forall j :: 0 <= j < |init| ==> init[j] == events[j];
      if NamedOtherThan(events[last], name) {
        assert r == LastEventWithName(init, name);
        assert OtherNamesAfter(init, -1, name) <==> OtherNamesAfter(events, -1, name);
        if r != Ok(None) {
          var i :| StopsAt(init, i, name, r);
          assert StopsAt(events, i, name, r);
        }
      } else {
        assert StopsAt(events, last, name, r);
      }
    }
  }

  /** `event.get("data", {}).get(key, {})` */
  function DataField(e: PyValue, key: string): Result<PyValue, PyError> {
    match DictGet(e, "data", EmptyDict)
    case Err(err) => Err(err)
    case Ok(data) => DictGet(data, key, EmptyDict)
  }

  /**
   * One stage of `_get_output_object`: `Ok(Some(v))` returns `v`,
   * `Ok(None)` goes on to the next stage, `Err` is the exception raised.
   */
  type Stage = Result<Option<PyValue>, PyError>

  /** Runs `next` only when `first` goes on. */
  function OrElse(first: Stage, next: Stage): Stage {
    if first == Ok(None) then next else first
  }

  /** The `task_complete` and `task_failed` stages: the last such event's truthy `data.reason`. */
  function ReasonStage(events: seq<PyValue>, name: string): (r: Stage)
    ensures r.Ok? && r.value.Some? ==> Truthy(r.value.value)
    ensures LastEventWithName(events, name).Err? ==> r == Err(LastEventWithName(events, name).error)
    ensures LastEventWithName(events, name) == Ok(None) ==> r == Ok(None)
  {
    match LastEventWithName(events, name)
    case Err(err) => Err(err)
    case Ok(None) => Ok(None)
    case Ok(Some(e)) =>
      match DataField(e, "reason")
      case Err(err) => Err(err)
      case Ok(reason) => if Truthy(reason) then Ok(Some(reason)) else Ok(None)
  }

  /** `{name: value for name, value in variables.items() if name not in inputs}` */
  function NonInputVariables(variables: map<string, PyValue>, inputs: map<string, string>): (r: map<string, PyValue>)
    ensures forall k :: k in r <==> k in variables && k !in inputs
    ensures forall k :: k in r ==> r[k] == variables[k]
  {
    map k | k in variables && k !in inputs :: variables[k]
  }

  /** The `flow_complete` stage: the final state's variables that are not inputs, if any. */
  function FlowStage(inputs: map<string, string>, events: seq<PyValue>): (r: Stage)
    ensures r.Ok? && r.value.Some? ==>
      r.value.value.PyDict? && r.value.value.entries != map[] && forall k :: k in r.value.value.entries ==> k !in inputs
    ensures LastEventWithName(events, "flow_complete") == Ok(None) ==> r == Ok(None)
  {
    match LastEventWithName(events, "flow_complete")
    case Err(err) => Err(err)
    case Ok(None) => Ok(None)
    case Ok(Some(e)) =>
      match DataField(e, "state")
      case Err(err) => Err(err)
      case Ok(state) =>
        match DictGet(state, "variables", EmptyDict)
        case Err(err) => Err(err)
        case Ok(PyDict(variables)) =>
          var outputs := NonInputVariables(variables, inputs);
          if outputs != map[] then Ok(Some(PyDict(outputs))) else Ok(None)
        case Ok(_) => Err(AttributeError)
  }

  /** `event["data"][key]` */
  function DataItem(e: PyValue, key: string): Result<PyValue, PyError> {
    match GetItem(e, "data")
    case Err(err) => Err(err)
    case Ok(data) => GetItem(data, key)
  }

  /**
   * The last stage: the latest `text_response` (as `{"response": ...}`) or
   * `tool_called` (as `{"output": ...}`) event, whichever is later.
   */
  function LatestResponse(events: seq<PyValue>): (r: Stage)
    ensures r.Ok? && r.value.Some? ==>
      r.value.value.PyDict? && (r.value.value.entries.Keys == {"response"} || r.value.value.entries.Keys == {"output"})
    decreases |events|
  {
    if events == [] then Ok(None)
    else
      var e := events[|events| - 1];
      match GetItem(e, "name")
      case Err(err) => Err(err)
      case Ok(n) =>
        if n == PyStr("text_response") then
          match DataItem(e, "response")
          case Err(err) => Err(err)
          case Ok(v) => Ok(Some(PyDict(map["response" := v])))
        else if n == PyStr("tool_called") then
          match DataItem(e, "result")
          case Err(err) => Err(err)
          case Ok(v) => Ok(Some(PyDict(map["output" := v])))
        else LatestResponse(events[..|events| - 1])
  }

  /** Event `e` is neither a text response nor a tool call, and its name can be read. */
  predicate Unanswered(e: PyValue) {
    NamedOtherThan(e, "text_response") && NamedOtherThan(e, "tool_called")
  }

  ghost predicate UnansweredAfter(events: seq<PyValue>, i: int) {
    forall j :: 0 <= j < |events| && i < j ==> Unanswered(events[j])
  }

  /** `r` is the object built from event `e`'s response or tool result. */
  predicate Answers(e: PyValue, r: Stage) {
    || (NamedAs(e, "text_response") && DataItem(e, "response").Ok?
        && r == Ok(Some(PyDict(map["response" := DataItem(e, "response").value]))))
    || (NamedAs(e, "tool_called") && DataItem(e, "result").Ok?
        && r == Ok(Some(PyDict(map["output" := DataItem(e, "result").value]))))
  }

  /**
   * The last stage finds nothing exactly when no event is a text response or
   * a tool call (and every name can be read); what it returns is built from
   * the latest event of either kind.
   */
  lemma {:induction false} LatestResponseSpec(events: seq<PyValue>)
    ensures LatestResponse(events) == Ok(None) <==> UnansweredAfter(events, -1)
    ensures LatestResponse(events).Ok? && LatestResponse(events).value.Some? ==>
      exists i :: 0 <= i < |events| && Answers(events[i], LatestResponse(events)) && UnansweredAfter(events, i)
    decreases |events|
  {
    if events != [] {
      var init := events[..|events| - 1];
      var last := |events| - 1;
      var r := LatestResponse(events);
      LatestResponseSpec(init);
      assert forall j :: 0 <= j < |init| ==> init[j] == events[j];
      if Unanswered(events[last]) {
        assert r == LatestResponse(init);
        assert UnansweredAfter(init, -1) <==> UnansweredAfter(events, -1);
        if r.Ok? && r.value.Some? {
          var i :| 0 <= i < |init| && Answers(init[i], r) && UnansweredAfter(init, i);
          assert UnansweredAfter(events, i);
        }
      } else {
        assert !UnansweredAfter(events, -1);
        assert r.Ok? && r.value.Some? ==> Answers(events[last], r);
      }
    }
  }

  /** Whatever the last stage returns is a one-entry dict. */
  lemma {:induction false} LatestResponseIsTruthy(events: seq<PyValue>)
    ensures LatestResponse(events).Ok? && LatestResponse(events).value.Some? ==> Truthy(LatestResponse(events).value.value)
    decreases |events|
  {
    if events != [] {
      LatestResponseIsTruthy(events[..|events| - 1]);
      var e := events[|events| - 1];
      if DataItem(e, "response").Ok? {
        assert "response" in map["response" := DataItem(e, "response").value];
      }
      if DataItem(e, "result").Ok? {
        assert "output" in map["output" := DataItem(e, "result").value];
      }
    }
  }

  /** `_get_output_object`: the four stages in order. */
  function GetOutputObject(inputs: map<string, string>, events: seq<PyValue>): (r: Stage)
    ensures r == Ok(None) <==>
      && ReasonStage(events, "task_complete") == Ok(None) && ReasonStage(events, "task_failed") == Ok(None)
      && FlowStage(inputs, events) == Ok(None) && LatestResponse(events) == Ok(None)
    ensures ReasonStage(events, "task_complete") != Ok(None) ==> r == ReasonStage(events, "task_complete")
    ensures r.Ok? && r.value.Some? ==> Truthy(r.value.value)
  {
    OrElse(ReasonStage(events, "task_complete"),
      OrElse(ReasonStage(events, "task_failed"),
        OrElse(FlowStage(inputs, events), LatestResponse(events))))
  }

  /**
   * Any output object found is truthy; one taken from the `flow_complete`
   * state never holds an input name; and a truthy reason on the last
   * `task_complete` event wins over everything else.
   */
  lemma OutputObjectFacts(inputs: map<string, string>, events: seq<PyValue>)
    ensures GetOutputObject(inputs, events).Ok? && GetOutputObject(inputs, events).value.Some? ==>
      Truthy(GetOutputObject(inputs, events).value.value)
    ensures FlowStage(inputs, events).Ok? && FlowStage(inputs, events).value.Some? ==>
      var v := FlowStage(inputs, events).value.value;
      v.PyDict? && v.entries != map[] && forall k :: k in v.entries ==> k !in inputs
    ensures var c := LastEventWithName(events, "task_complete");
      (c.Ok? && c.value.Some? && DataField(c.value.value, "reason").Ok? && Truthy(DataField(c.value.value, "reason").value)) ==>
      GetOutputObject(inputs, events) == Ok(Some(DataField(c.value.value, "reason").value))
  {
    LatestResponseIsTruthy(events);
  }

  /**
   * When no event is named `task_complete`, `task_failed` or `flow_complete`,
   * the output object is the latest response or tool result.
   */
  lemma OutputFallsThroughToLatest(inputs: map<string, string>, events: seq<PyValue>)
    requires OtherNamesAfter(events, -1, "task_complete") && OtherNamesAfter(events, -1, "task_failed")
    requires OtherNamesAfter(events, -1, "flow_complete")
    ensures GetOutputObject(inputs, events) == LatestResponse(events)
  {
    LastEventWithNameSpec(events, "task_complete");
    LastEventWithNameSpec(events, "task_failed");
    LastEventWithNameSpec(events, "flow_complete");
  }

  // ---------------------------------------------------------------------------
  // Fallback

  const NoOutputMessage := "the tool did not write any output"

  /** `Runner.run` after the events are read: the output object, else the child's stderr, else its stdout. */
  function FinalOutput(found: Option<PyValue>, stdoutLines: seq<string>, stderrLines: seq<string>): (r: PyValue)
    ensures found.Some? ==> r == found.value
    ensures found.None? ==> r.PyDict? && r.entries.Keys == {"output"} && r.entries["output"].PyStr?
  {
    if found.Some? then found.value
    else if stderrLines != [] then PyDict(map["output" := PyStr(Join("\n", stderrLines))])
    else if stdoutLines != [] then PyDict(map["output" := PyStr(Join("\n", stdoutLines))])
    else PyDict(map["output" := PyStr(NoOutputMessage)])
  }

  /** A list of strings as the JSON-like value Python holds it as. */
  function StrList(ls: seq<string>): (r: PyValue)
    ensures r.PyList? && |r.items| == |ls|
    ensures forall k :: 0 <= k < |ls| ==> r.items[k] == PyStr(ls[k])
  {
    PyList(seq(|ls|, k requires 0 <= k < |ls| => PyStr(ls[k])))
  }

  /**
   * The output state that `Runner.run` returns: the command line, the output
   * object, the child's exit code, its output lines and the events it emitted.
   */
  function OutputState(commandLine: seq<string>, output: PyValue, exitCode: int,
                       stdoutLines: seq<string>, stderrLines: seq<string>, events: seq<PyValue>): (r: PyValue)
    ensures r.PyDict? && r.entries.Keys == {"command_line", "output", "exit_code", "stdout", "stderr", "events"}
    ensures r.entries["output"] == output && r.entries["exit_code"] == PyInt(exitCode)
    ensures r.entries["command_line"] == StrList(commandLine) && r.entries["events"] == PyList(events)
    ensures r.entries["stdout"] == StrList(stdoutLines) && r.entries["stderr"] == StrList(stderrLines)
  {
    PyDict(map["command_line" := StrList(commandLine), "output" := output, "exit_code" := PyInt(exitCode),
               "stdout" := StrList(stdoutLines), "stderr" := StrList(stderrLines), "events" := PyList(events)])
  }

  predicate Lines(ls: seq<string>) {
    forall k :: 0 <= k < |ls| ==> '\n' !in ls[k]
  }

  /**
   * Without an output object the lines of stderr, when there are any, and
   * otherwise those of stdout, can be read back from the fallback output;
   * with neither, it is the fixed message.
   */
  lemma FallbackRecoversLines(stdoutLines: seq<string>, stderrLines: seq<string>)
    requires Lines(stdoutLines) && Lines(stderrLines)
    ensures var r := FinalOutput(None, stdoutLines, stderrLines).entries["output"].s;
      && (stderrLines != [] ==> Split(r, '\n') == stderrLines)
      && (stderrLines == [] && stdoutLines != [] ==> Split(r, '\n') == stdoutLines)
      && (stderrLines == [] && stdoutLines == [] ==> r == NoOutputMessage)
  {
    if stderrLines != [] {
      SplitJoin(stderrLines, '\n');
    } else if stdoutLines != [] {
      SplitJoin(stdoutLines, '\n');
    }
  }

  /**
   * A runner: its events file, its command line, and the caller's input
   * state, which the command line construction has already changed.
   */
  class ChildRunner {
    const eventsFile: string
    const commandLine: seq<string>
    const inputState: InputState

    /**
     * `Runner.__init__`. `eventsFile` is the temporary path named after the
     * runner's fresh id.
     */
    constructor(bin: string, o: RunOptions, state: InputState, dumps: map<string, string> -> string, eventsFile: string)
      modifies state
      ensures this.eventsFile == eventsFile && inputState == state
      ensures commandLine == CommandLine(bin, o, old(state.entries), dumps, eventsFile)
      ensures state.entries == old(state.entries) - {"task"}
    {
      var cmd := CreateCommandLine(bin, o, state, dumps, eventsFile);
      this.eventsFile := eventsFile;
      commandLine := cmd;
      inputState := state;
    }

    /**
     * The end of `Runner.run`, given the parsed events and the child's output
     * lines and exit code: the inputs it excludes are the state as it is
     * now, so without its `task` key.
     */
    method CollectOutput(events: seq<PyValue>, exitCode: int, stdoutLines: seq<string>, stderrLines: seq<string>)
      returns (r: Result<PyValue, PyError>)
      ensures GetOutputObject(inputState.entries, events).Err? ==> r == Err(GetOutputObject(inputState.entries, events).error)
      ensures GetOutputObject(inputState.entries, events).Ok? ==>
        r == Ok(OutputState(commandLine, FinalOutput(GetOutputObject(inputState.entries, events).value, stdoutLines, stderrLines),
                            exitCode, stdoutLines, stderrLines, events))
    {
      var found := GetOutputObject(inputState.entries, events);
      if found.Err? {
        return Err(found.error);
      }
      var output := FinalOutput(found.value, stdoutLines, stderrLines);
      r := Ok(OutputState(commandLine, output, exitCode, stdoutLines, stderrLines, events));
    }
  }

  /** The collected output is always truthy. */
  lemma CollectedOutputIsTruthy(inputs: map<string, string>, events: seq<PyValue>, stdoutLines: seq<string>, stderrLines: seq<string>)
    requires GetOutputObject(inputs, events).Ok?
    ensures Truthy(FinalOutput(GetOutputObject(inputs, events).value, stdoutLines, stderrLines))
  {
    OutputObjectFacts(inputs, events);
    var r := FinalOutput(GetOutputObject(inputs, events).value, stdoutLines, stderrLines);
    if GetOutputObject(inputs, events).value.None? {
      assert "output" in r.entries;
    }
  }
}
