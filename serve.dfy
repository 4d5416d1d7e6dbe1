/**
 * The request handling of `nerve serve` (nerve/cli/serve.py): the input
 * state built from a request body, the agent's name derived from its
 * configuration path, the choice between agent and tool endpoints, and the
 * raw-or-output response.
 */
module Serve {
  import opened Wrappers
  import opened Strings
  import opened PyValues
  import FilesystemW
  import Runner

  // ---------------------------------------------------------------------------
  // Input state from a request

  /** `HTTPException(status_code, detail)` */
  datatype HttpError = HttpError(status: int, detail: string)

  function RequiredMessage(name: string): string {
    "input '" + name + "' is required"
  }

  /** The value an input takes: the request's own, else the configured default. */
  function InputValue(inputs: map<string, PyValue>, data: map<string, PyValue>, name: string): PyValue
    requires name in inputs
  {
    if name in data then data[name] else inputs[name]
  }

  /**
   * `_get_input_state_from_request`: every input takes its value from the
   * request, else from its default; an input left `None` is a 400 error
   * naming it. Keys of the request that are not inputs are ignored. The
   * inputs are visited in dict order, which is not modelled: when several
   * are missing, the error names one of them.
   */
  method InputStateFromRequest(inputs: map<string, PyValue>, data: map<string, PyValue>)
    returns (r: Result<map<string, PyValue>, HttpError>)
    ensures r.Ok? <==> forall n :: n in inputs ==> InputValue(inputs, data, n) != PyNone
    ensures r.Ok? ==> r.value.Keys == inputs.Keys
    ensures r.Ok? ==> forall n :: n in inputs ==> r.value[n] == InputValue(inputs, data, n)
    ensures r.Err? ==> exists n :: n in inputs && InputValue(inputs, data, n) == PyNone
                                 && r.error == HttpError(400, RequiredMessage(n))
  {
    var state := inputs;
    var remaining := inputs.Keys;
    while remaining != {}
      invariant remaining <= inputs.Keys
      invariant state.Keys == inputs.Keys
      invariant forall n :: n in inputs.Keys - remaining ==> InputValue(inputs, data, n) != PyNone
      invariant forall n :: n in inputs.Keys - remaining ==> state[n] == InputValue(inputs, data, n)
      decreases |remaining|
    {
      var name :| name in remaining;
      var value := if name in data then data[name] else inputs[name];
      if value == PyNone {
        return Err(HttpError(400, RequiredMessage(name)));
      }
      state := state[name := value];
      remaining := remaining - {name};
    }
    r := Ok(state);
  }

  /** An input with a non-`None` default never has to be sent. */
  lemma DefaultsMakeInputsOptional(inputs: map<string, PyValue>, data: map<string, PyValue>, name: string)
    requires name in inputs && inputs[name] != PyNone
    requires name !in data || data[name] != PyNone
    ensures InputValue(inputs, data, name) != PyNone
    ensures name !in data ==> InputValue(inputs, data, name) == inputs[name]
  {
  }

  // ---------------------------------------------------------------------------
  // Agent name

  /** `PurePath.name` of a resolved path given by its components. */
  function PathName(p: FilesystemW.Path): string {
    if p == [] then "" else p[|p| - 1]
  }

  function ParentPath(p: FilesystemW.Path): FilesystemW.Path {
    if p == [] then [] else p[..|p| - 1]
  }

  /**
   * `PurePath.stem` of a name: without its suffix, which starts at the last
   * `.` unless that dot is the first or the last character.
   */
  function Stem(name: string): (r: string)
    ensures |r| <= |name| && r == name[..|r|]
  {
    match FilesystemW.LastIndexOf(name, '.')
    case Some(i) => if 0 < i < |name| - 1 then name[..i] else name
    case None => name
  }

  /** A name ending in `.ext` (with a non-empty stem and no dot in `ext`) has the rest as its stem. */
  lemma StemDropsExtension(base: string, ext: string)
    requires base != [] && ext != [] && '.' !in ext
    ensures Stem(base + "." + ext) == base
  {
    var name := base + "." + ext;
    var i := |base|;
    assert name[i] == '.';
    assert name[i + 1..] == ext;
    FilesystemW.LastIndexOfAt(name, '.', i);
  }

  /** A name without a dot is its own stem. */
  lemma StemOfPlainName(name: string)
    requires '.' !in name
    ensures Stem(name) == name
  {
  }

  /**
   * `_get_agent_name`: the file's stem, unless the file is one of the
   * conventional `agent`, `workflow` or `task` files, whose directory names
   * the agent.
   */
  function AgentName(p: FilesystemW.Path): (r: string)
    ensures Stem(PathName(p)) !in ["agent", "workflow", "task"] ==> r == Stem(PathName(p))
    ensures Stem(PathName(p)) in ["agent", "workflow", "task"] ==> r == PathName(ParentPath(p))
  {
    var stem := Stem(PathName(p));
    if stem in ["agent", "workflow", "task"] then PathName(ParentPath(p)) else stem
  }

  /** `<dir>/agent.yml` is named after its directory. */
  lemma ConventionalFileNamedAfterDirectory(base: FilesystemW.Path, dir: string)
    ensures AgentName(base + [dir, "agent.yml"]) == dir
  {
    StemDropsExtension("agent", "yml");
    assert "agent" + "." + "yml" == "agent.yml";
    var p := base + [dir, "agent.yml"];
    assert PathName(p) == "agent.yml";
    assert ParentPath(p) == base + [dir];
  }

  /** `<dir>/<name>.yml` for any other dot-free name is named after the file. */
  lemma OtherFileNamedAfterItself(base: FilesystemW.Path, dir: string, name: string)
    requires name != [] && '.' !in name && name !in ["agent", "workflow", "task"]
    ensures AgentName(base + [dir, name + ".yml"]) == name
  {
    StemDropsExtension(name, "yml");
    assert name + "." + "yml" == name + ".yml";
    assert PathName(base + [dir, name + ".yml"]) == name + ".yml";
  }

  // ---------------------------------------------------------------------------
  // Serving mode and routes

  /** The `system_prompt`, `agent` and `task` fields of the configuration. */
  datatype Prompts = Prompts(systemPrompt: Option<string>, agent: Option<string>, task: Option<string>)

  predicate NoPrompt(c: Prompts) {
    !Present(c.systemPrompt) && !Present(c.agent) && !Present(c.task)
  }

  predicate Present(o: Option<string>) {
    o.Some? && o.value != []
  }

  /** The chosen mode: whether tool endpoints are served, and whether only they are. */
  datatype ServeMode = ServeMode(serveTools: bool, toolsOnly: bool)

  /**
   * The mode `serve` settles on: tools only when asked for or when the
   * configuration has no prompt at all, and serving tools then implied.
   */
  function ChooseMode(c: Prompts, serveTools: bool, toolsOnly: bool): (m: ServeMode)
    ensures m.toolsOnly <==> toolsOnly || NoPrompt(c)
    ensures m.serveTools <==> serveTools || m.toolsOnly
  {
    if toolsOnly || NoPrompt(c) then ServeMode(true, true) else ServeMode(serveTools, toolsOnly)
  }

  /**
   * `_get_rest_api_app`'s routes, in order: the agent at `/` unless tools
   * only, then `/<tool>` for each tool when tools are served and the
   * runtime exists.
   */
  function RestRoutes(m: ServeMode, runtimeBuilt: bool, toolNames: seq<string>): (routes: seq<string>)
    ensures |routes| == (if m.toolsOnly then 0 else 1) + (if m.serveTools && runtimeBuilt then |toolNames| else 0)
  {
    (if m.toolsOnly then [] else ["/"])
    + (if m.serveTools && runtimeBuilt then seq(|toolNames|, k requires 0 <= k < |toolNames| => "/" + toolNames[k]) else [])
  }

  /**
   * The agent route is served exactly when the mode is not tools-only, and
   * then first; in tools-only mode every tool has its route, the runtime
   * being built whenever tools are served.
   */
  lemma RoutesFollowMode(c: Prompts, serveTools: bool, toolsOnly: bool, toolNames: seq<string>)
    ensures var m := ChooseMode(c, serveTools, toolsOnly);
      var routes := RestRoutes(m, m.serveTools, toolNames);
      && ("/" in routes <==> !m.toolsOnly || "" in toolNames)
      && (!m.toolsOnly ==> routes[0] == "/")
      && (m.toolsOnly ==> forall k :: 0 <= k < |toolNames| ==> routes[k] == "/" + toolNames[k])
  {
    var m := ChooseMode(c, serveTools, toolsOnly);
    var routes := RestRoutes(m, m.serveTools, toolNames);
    var tools := if m.serveTools then seq(|toolNames|, k requires 0 <= k < |toolNames| => "/" + toolNames[k]) else [];
    assert routes == (if m.toolsOnly then [] else ["/"]) + tools;
    if "" in toolNames && m.serveTools {
      var k :| 0 <= k < |toolNames| && toolNames[k] == "";
      assert tools[k] == "/";
    }
    if "/" in tools {
      var k :| 0 <= k < |tools| && tools[k] == "/";
      assert toolNames[k] == [];
    }
  }

  // ---------------------------------------------------------------------------
  // Response

  /** `request.query_params.get("full", "false").lower() == "true"` */
  predicate WantsRaw(full: Option<string>) {
    LowerAscii(full.GetOr("false")) == "true"
  }

  /** `c` is the lower-case ASCII letter `lower` or its upper-case form. */
  predicate SameLetter(c: char, lower: char) {
    c == lower || c as int == lower as int - 32
  }

  /** `true` in any letter case asks for the whole output state; no parameter does not. */
  lemma WantsRawIffTrue(full: Option<string>)
    ensures full.None? ==> !WantsRaw(full)
    ensures full.Some? ==> (WantsRaw(full) <==>
      |full.value| == 4 && forall k :: 0 <= k < 4 ==> SameLetter(full.value[k], "true"[k]))
  {
    if full.None? {
      assert LowerAscii("false")[0] == 'f';
    } else {
      var s := full.value;
      var l := LowerAscii(s);
      if |s| == 4 {
        assert l == "true" <==> forall k :: 0 <= k < 4 ==> l[k] == "true"[k];
      }
    }
  }

  /** The endpoint's reply: the runner's whole output state, or its `output` entry. */
  function Response(full: Option<string>, outputState: PyValue): (r: Result<PyValue, PyError>)
    ensures WantsRaw(full) ==> r == Ok(outputState)
    ensures !WantsRaw(full) ==> r == GetItem(outputState, "output")
  {
    if WantsRaw(full) then Ok(outputState) else GetItem(outputState, "output")
  }

  /**
   * The plain reply to a run is the output object the runner collected, so it
   * cannot fail; when the child produced no output object it is the fallback,
   * a one-key dictionary whose `output` is text.
   */
  lemma PlainReplyIsOutputObject(full: Option<string>, commandLine: seq<string>, found: Option<PyValue>, exitCode: int,
                                 stdoutLines: seq<string>, stderrLines: seq<string>, events: seq<PyValue>)
    requires !WantsRaw(full)
    ensures var out := Runner.FinalOutput(found, stdoutLines, stderrLines);
      var r := Response(full, Runner.OutputState(commandLine, out, exitCode, stdoutLines, stderrLines, events));
      && r == Ok(out)
      && (found.None? ==> r.value.PyDict? && r.value.entries.Keys == {"output"} && r.value.entries["output"].PyStr?)
  {
  }
}
