# nerve: a verified model of the agent runtime's deterministic core

nerve runs LLM agents. An agent is configured with a system prompt, a task and
tools. A generator adapter talks to the model provider. It turns the
conversation into provider messages and the registry of namespaces and actions
into a tool schema, and it turns the provider's reply back into text and
decoded invocations. A Python layer around it does three things:

- it spawns child `nerve run` processes and reads their event traces for the
  output;
- it serves agents over REST;
- it keeps evaluation tallies.

The tool namespaces let an agent run shell commands and write files inside a
jail. An example evaluator judges the agent's answer to the A::B
term-rewriting puzzle.

This project models those parts and proves their contracts. One Dafny module
per source file:

- `Groq` and `OpenAI`: the two generator adapters.
  - History translation: seed turns, the Groq tool-id counter, the image URL
    or data-URI choice, the `<no output>` filler.
  - The capability probe, the decoding of replies and usage, and the OpenAI
    embedding reply.
  - They share three modules. `ToolSchema` synthesises a schema per action.
    `ToolCalls` decodes a tool call's argument map into an `Invocation`.
    `RetryPattern` is `RETRY_TIME_PARSER` written as a function with proved
    soundness, completeness and greediness.
- `Namespaces`:
  - storage descriptor constructors and `predefine`;
  - the namespace constructors;
  - `ActionOutput` and its `Display`;
  - the `Action` default hooks;
  - the insertion order of the `NAMESPACES` registry.
- `Models`: `Status.is_done`, `Usage.__add__`, the version requirement text,
  `Configuration.get_inputs` and the `Evaluation` bookkeeping. `Evaluation` is
  a class whose `AddRun` and `RemoveRun` keep the tally invariant.
- `Runner`: both copies of the child runner.
  - The command line, built by a method that deletes `task` from the caller's
    `InputState` object, with a round-trip lemma that parses it back.
  - The reverse scans over the event trace.
  - The priority order of output extraction, and the fallback to the child's
    stderr or stdout lines.
- `Serve`: REST input validation and defaulting, agent names, the serving mode
  and its routes, and the raw-or-output reply.
- `FilesystemW`: the jail predicate over resolved component paths, the access
  check, and `create_file`/`delete_file` as methods of a `Disk` class.
- `Shell`: the byte-level output assembly, with a proof that once stdout is
  known, the return code and stderr can be read back from it, and
  `_maybe_text`.
- `AbEval`: the A::B evaluator.
  - `reduce` as a method proved equal to a one-pass rewriting function.
  - `solve` as a fixpoint loop, terminating by the measure "right-facing
    before left-facing pairs plus length".
  - Normal form, balance preservation and idempotence of solving.
  - The most-recent-solution scan and the exit status.

Shared modules: `Wrappers` (Option and Result), `Strings` (Rust `trim`, Python
`strip`, `trim_matches('"')`, `split`/`join`, integer rendering, ASCII
lowering), `PyValues` (decoded JSON values with Python's indexing,
`.get` and truthiness), and `Generator` (the message and response vocabulary
shared by the adapters).

Foreign parts enter as parameters:

- provider replies as datatypes;
- the rate-limit decision as `shouldRetry`;
- `json.dumps` as `dumps`;
- jinja's undeclared-variables function as `undeclared`;
- `packaging` version matching as `accepts`;
- UTF-8 decoding as `decodeUtf8`;
- `Path.resolve` as `resolve`.

Argument values lose every leading and trailing double quote
(`trim_matches`), not just one.

`Runner.CollectOutput` uses the runner's input state after the command line
has removed `task` from it. A flow's `task` variable therefore counts as
output, just as it does in `Runner.run`.

## Model

| member | source | states |
|---|---|---|
| `Groq.ImageUrlShape` | src/agent/generator/groq.rs:196-202 | the URL is a web URL exactly when the data is, and is then the data verbatim; it always ends with the data; otherwise it starts with `data:<mime>;base64,` |
| `Groq.Seed` | src/agent/generator/groq.rs:125-150 | two seed turns (trimmed system prompt, then trimmed prompt) when a system prompt is set, else only the trimmed prompt as a user turn |
| `Groq.LastDash` | src/agent/generator/groq.rs:159 | the `-` right after the action name is the last `-` of a tool id |
| `Groq.ToolCallIdInjective` | src/agent/generator/groq.rs:159 | equal tool ids come from equal action names and equal indices, even for names containing `-` |
| `Groq.AgentCallsStep` | src/agent/generator/groq.rs:156-161 | the counter grows by one at an agent turn with an invocation, and not otherwise |
| `Groq.AgentCallsMonotone` | src/agent/generator/groq.rs:152-175 | the counter never decreases along the history |
| `Groq.TranslateStep` | src/agent/generator/groq.rs:155-243 | one loop body: the entry's message for the current counter, and the counter advanced exactly for an agent turn with an invocation |
| `Groq.AppendHistory` | src/agent/generator/groq.rs:152-244 | the loop appends one message per history entry, in order, entry k translated with the count of agent calls before it |
| `Groq.Translated` | src/agent/generator/groq.rs:154-243 | the translated prefix has one message per entry, each with the counter value the loop had reached |
| `Groq.TranslateHistory` | src/agent/generator/groq.rs:125-244 | `chat_history` is the seed followed by the translated history |
| `Groq.TranslateEntry` | src/agent/generator/groq.rs:156-241 | agent turns become assistant messages with trimmed text; text feedback is a tool message exactly when it has an invocation; image feedback is always a user message with image content; feedback without an invocation is a user message; nothing becomes a system message; a tool id is present exactly with an invocation |
| `Groq.AssistantIdsDistinct` | src/agent/generator/groq.rs:156-161 | two agent calls at different positions get different tool ids |
| `Groq.FeedbackAfterCallIndex` | src/agent/generator/groq.rs:171-175 | feedback does not advance the counter, so feedback right after an agent call carries the index one past that call's own |
| `Groq.RequestTools` | src/agent/generator/groq.rs:248-303 | tools are attached exactly when native tools are on, one schema per action in namespace then action order |
| `Groq.ProbeFeatures` | src/agent/generator/groq.rs:114-117 | the system prompt is always supported; tools are supported exactly when the trial request succeeded |
| `Groq.DecodeReply` | src/agent/generator/groq.rs:309-384 | only a 429 error response whose message the rate-limit check accepts is retried; other errors are returned; a stream reply is unsupported; no choice is a panic; a malformed call aborts; otherwise the content, the decoded invocations and the usage are returned |
| `Groq.DoneReplyShape` | src/agent/generator/groq.rs:336-383 | a successful reply always carries usage and one invocation per tool call, and none without tool calls |
| `OpenAI.GetToolsIfSupported` | src/agent/generator/openai.rs:58-121 | no tools unless native tools are on; then one schema per action, in namespace then action order |
| `OpenAI.RequestTools` | src/agent/generator/openai.rs:271 | an empty tool list is sent as no tools, any other list as itself |
| `OpenAI.ToolsSentIff` | src/agent/generator/openai.rs:256-271 | the request carries tools exactly when native tools are on and the registry has an action |
| `OpenAI.Seed` | src/agent/generator/openai.rs:214-232 | trimmed system prompt then trimmed prompt, or only the trimmed prompt as a user message |
| `OpenAI.FillEmpty` | src/agent/generator/openai.rs:243-246 | feedback content is never empty |
| `OpenAI.TranslateEntry` | src/agent/generator/openai.rs:236-252 | agent turns become assistant messages with their trimmed text; feedback becomes a user message whose content is never empty |
| `OpenAI.TranslatedPointwise` | src/agent/generator/openai.rs:234-254 | the translation keeps length and order: entry k becomes message k |
| `OpenAI.TranslateStep` | src/agent/generator/openai.rs:235-253 | one loop body produces the entry's message |
| `OpenAI.AppendHistory` | src/agent/generator/openai.rs:234-254 | the loop appends the translated history to the seed |
| `OpenAI.TranslateHistory` | src/agent/generator/openai.rs:214-254 | `chat_history` is the seed followed by the translated history |
| `OpenAI.TranslationRules` | src/agent/generator/openai.rs:236-252 | replacing the invocation attached to an entry changes nothing; text feedback is its trimmed text, or `<no output>` when that is empty |
| `OpenAI.ImageFeedbackSentAsRendered` | src/agent/generator/openai.rs:241-251 | image feedback is sent as its `image: <data> (<mime>)` rendering, trimmed |
| `OpenAI.TranslatedIsTrimmed` | src/agent/generator/openai.rs:236-252 | translated content neither starts nor ends with whitespace |
| `OpenAI.ProbeFeatures` | src/agent/generator/openai.rs:175-206 | tools are supported exactly when the first choice returned a non-empty tool-call list; the system prompt is off exactly when the error text contains both rejection markers |
| `OpenAI.ProbeConsistency` | src/agent/generator/openai.rs:175-206 | tools imply a system prompt; a successful reply never turns the system prompt off; a failed probe never reports tools; an error lacking `unsupported_value` leaves the system prompt on |
| `OpenAI.MapUsage` | src/agent/generator/openai.rs:344-350 | usage is present exactly when prompt tokens are; the output tokens default to 0 |
| `OpenAI.ToWireAll` | src/agent/generator/openai.rs:298-299 | one wire call per reply call, in order |
| `OpenAI.DecodeReply` | src/agent/generator/openai.rs:275-351 | every error goes to the rate-limit check and is retried exactly when it says so, else returned; no choice is a panic; a malformed call aborts the reply; otherwise content, invocations and mapped usage are returned |
| `OpenAI.OpenAICallsKeepNames` | src/agent/generator/openai.rs:327-328 | each decoded invocation names its call's function |
| `OpenAI.MalformedCallAborts` | src/agent/generator/openai.rs:303-310 | one malformed argument text makes the whole decoding fail |
| `OpenAI.EmbedOutcomeOf` | src/agent/generator/openai.rs:357-378 | an error is retried exactly when the check says so, else returned; a reply with at least one data item gives the first item's embedding (empty when that item has none); any other completed reply panics |
| `ToolSchema.KeyListingAdd` | src/agent/generator/groq.rs:271-272 | appending a new key extends a duplicate-free listing of the keys |
| `ToolSchema.AttributePropertiesAdd` | src/agent/generator/groq.rs:273-279 | adding a key adds a string property described by the key itself |
| `ToolSchema.UnionUpdate` | src/agent/generator/groq.rs:270-281 | inserting into the attribute part of a property map is inserting into the whole map |
| `ToolSchema.BuildTool` | src/agent/generator/openai.rs:67-110 | the function tool built for an action satisfies the schema rules for that action |
| `ToolSchema.SchemaFromParts` | src/agent/generator/openai.rs:67-105 | the name, the description, the payload part followed by a listing of the attribute keys, and the matching properties make a schema of the action |
| `ToolSchema.AttributesAddedStep` | src/agent/generator/openai.rs:85-94 | one pass of the key loop keeps the loop state: the required list grows by the key and the key's property is added |
| `ToolSchema.AttributesAddedStart` | src/agent/generator/openai.rs:84-85 | before the key loop nothing has been added |
| `ToolSchema.AddAttributeParameters` | src/agent/generator/openai.rs:84-95 | the key loop appends every example attribute key once to `required` and adds its string property |
| `ToolSchema.AllActionsStep` | src/agent/generator/openai.rs:64-66 | the actions of one more namespace follow those already visited |
| `ToolSchema.BuildTools` | src/agent/generator/openai.rs:64-112 | one tool per action, in namespace then action order, each a schema of its action |
| `ToolSchema.RequiredFacts` | src/agent/generator/groq.rs:253-281 | the required list names the payload (first, when there is an example payload) and each attribute key, and nothing else |
| `ToolSchema.SchemaDeterminedUpToKeyOrder` | src/agent/generator/groq.rs:253-291 | two schemas of one action differ at most in the order of their attribute keys |
| `ToolSchema.PayloadRule` | src/agent/generator/groq.rs:256-268 | `payload` is required and has a property exactly when there is an example payload, described as the template text followed by the example |
| `ToolSchema.AttributeRule` | src/agent/generator/groq.rs:270-281 | every example attribute key is required, as a string property described by its own name |
| `ToolSchema.DefaultActionSchema` | src/agent/namespaces/mod.rs:212-219 | an action with the default hooks gets no parameters |
| `ToolCalls.ArgStringFacts` | src/agent/generator/groq.rs:347-353 | the result neither starts nor ends with `"`; it is empty exactly when the argument's text is all quotes; a text without surrounding quotes is kept as it is |
| `ToolCalls.DecodedInvocation` | src/agent/generator/groq.rs:341-370 | the payload is present exactly when the `payload` key is; every other key is an attribute; attributes are absent rather than empty; the action name is kept |
| `ToolCalls.AttributesOverAdd` | src/agent/generator/groq.rs:347-358 | visiting one more key adds it to the attributes unless it is `payload` |
| `ToolCalls.DecodeArguments` | src/agent/generator/openai.rs:311-325 | the loop over the argument map, in any order, yields the `payload` value and all other keys as attributes |
| `ToolCalls.DecodeCall` | src/agent/generator/groq.rs:340-372 | decoding one call gives the invocation its name and arguments call for |
| `ToolCalls.PayloadAndOneAttribute` | src/agent/generator/groq.rs:354-358 | with a `payload` key and one other key, the first is the payload and the other the only attribute |
| `ToolCalls.Quotes` | src/agent/generator/groq.rs:353 | a run of n double quotes |
| `ToolCalls.AllSurroundingQuotesStripped` | src/agent/generator/groq.rs:353 | every surrounding double quote is stripped, not only one, for string and non-string values |
| `ToolCalls.NoArguments` | src/agent/generator/groq.rs:344-370 | a call without arguments has neither payload nor attributes |
| `ToolCalls.DecodeCalls` | src/agent/generator/groq.rs:339-374 | decoding succeeds exactly when no call is malformed, with one invocation per call in order; otherwise it fails with a malformed call's error |
| `ToolCalls.DecodeAllCalls` | src/agent/generator/openai.rs:298-339 | the `for call in calls` loop, aborting at the first malformed call as `?` does, computes the decoding |
| `ToolCalls.DecodeCallsStopsAt` | src/agent/generator/openai.rs:303-310 | the error reported is that of the first malformed call |
| `ToolCalls.DecodeCallsAllOk` | src/agent/generator/groq.rs:339-374 | with well-formed calls the result is exactly the per-call invocations |
| `RetryPattern.LastOccurrence` | src/agent/generator/groq.rs:28 | the last position in a range where a text occurs, or none |
| `RetryPattern.LineMatch` | src/agent/generator/groq.rs:28 | the chosen match in a line is a match, with the greatest lead position and then the greatest tail position; no match means none exists |
| `RetryPattern.LineCapture` | src/agent/generator/groq.rs:28 | a line yields a capture exactly when it holds a match, and the capture lies between the lead and the tail of one |
| `RetryPattern.FirstMatchingLine` | src/agent/generator/groq.rs:28 | the first line holding a match |
| `RetryPattern.RetryAfter` | src/agent/generator/groq.rs:27-28 | a capture is never empty and never spans a line break |
| `RetryPattern.MatchDecomposes` | src/agent/generator/groq.rs:28 | a match splits the line into prefix, `try again in `, capture, `. Visit` and rest |
| `RetryPattern.CaptureDecomposes` | src/agent/generator/groq.rs:28 | a capture has a non-empty prefix plus the lead before it and the tail after it |
| `RetryPattern.RetryAfterFromLine` | src/agent/generator/groq.rs:28 | the answer is the capture of one of the message's lines |
| `RetryPattern.RetryAfterSound` | src/agent/generator/groq.rs:27-28 | soundness: the answer sits in a line of the form `<prefix>try again in <capture>. Visit<rest>` with a non-empty prefix |
| `RetryPattern.StandardParts` | src/agent/generator/groq.rs:28 | a line written as prefix, lead, capture, tail and rest is a match at those positions |
| `RetryPattern.RetryAfterComplete` | src/agent/generator/groq.rs:27-28 | completeness: a message with a line of that form always yields a capture |
| `RetryPattern.RetryAfterGreedy` | src/agent/generator/groq.rs:28 | both `.+` are greedy: no match starts its lead later, and none with the same lead has a longer capture |
| `RetryPattern.LineMatchUnique` | src/agent/generator/groq.rs:28 | a match after which neither the lead nor the tail recurs is the one chosen |
| `RetryPattern.RetryAfterStandardLine` | src/agent/generator/groq.rs:28 | a match with no later `try again in ` and no later `. Visit` yields exactly the text between them |
| `Namespaces.ConstructorsTagTheirType` | src/agent/namespaces/mod.rs:51-104 | every storage constructor sets its own storage type, keeps the name and predefines nothing |
| `Namespaces.Predefine` | src/agent/namespaces/mod.rs:106-109 | `predefine` sets the predefined map and keeps name and type |
| `Namespaces.PredefineLastWins` | src/agent/namespaces/mod.rs:106-109 | predefining twice keeps only the second map |
| `Namespaces.DefaultAction` | src/agent/namespaces/mod.rs:193-235 | an action with the trait's default hooks: no timeout, example attributes, example payload or required variables; no confirmation; does not complete the task |
| `Namespaces.NewNonDefault` | src/agent/namespaces/mod.rs:122-136 | the namespace is not a default one |
| `Namespaces.NewDefault` | src/agent/namespaces/mod.rs:138-152 | the namespace is a default one |
| `Namespaces.NamespaceConstructorsAgree` | src/agent/namespaces/mod.rs:122-152 | both constructors pass name, description, actions and storages through unchanged and differ only in the default flag |
| `Namespaces.FromText` | src/agent/namespaces/mod.rs:161-180 | conversion from text always gives a text output of that text |
| `Namespaces.Display` | src/agent/namespaces/mod.rs:182-191 | text renders as itself; an image renders with the data at offset 7 and the MIME type just before the closing character, with exactly ten characters of decoration |
| `Namespaces.DisplayFromText` | src/agent/namespaces/mod.rs:182-191 | a text output displays as its text |
| `Namespaces.DisplayImage` | src/agent/namespaces/mod.rs:182-191 | an image displays as `image: <data> (<mime>)` |
| `Namespaces.IndexInsert` | src/agent/namespaces/mod.rs:28-36 | inserting a new key appends it; inserting a present key keeps the order |
| `Namespaces.DistinctTail` | src/agent/namespaces/mod.rs:28-36 | the tail of a duplicate-free key list is duplicate-free and lacks its head |
| `Namespaces.InsertAllAppends` | src/agent/namespaces/mod.rs:26-38 | inserting distinct new keys one by one appends them in order |
| `Namespaces.RegisteredNamesDistinct` | src/agent/namespaces/mod.rs:28-36 | the nine registered names are distinct |
| `Namespaces.NamespaceNamesOrder` | src/agent/namespaces/mod.rs:25-39 | the registry holds exactly memory, time, goal, planning, task, filesystem, rag, http, shell, in that order, with no duplicates |
| `Models.StatusOf` | nerve/models.py:24-32 | parsing a status value gives back a status with that value |
| `Models.StatusValueRoundTrip` | nerve/models.py:24-32 | every status parses back from its value |
| `Models.IsDone` | nerve/models.py:34-35 | done exactly when neither paused nor running, that is, when the value is `completed` or `failed` |
| `Models.AddUsage` | nerve/models.py:44-50 | each token counter of the sum is the sum of the counters; the cost is set and is the sum of the costs, a missing cost counting as zero |
| `Models.AddUsageLaws` | nerve/models.py:44-50 | usage addition is commutative and associative, and adding the zero usage only fills in the cost |
| `Models.SumUsageTotals` | nerve/models.py:44-50 | every token counter of a sum of usages is the total of that counter; its cost is the total cost, and is set for a non-empty sum |
| `Models.RequirementText` | nerve/models.py:86-90 | the requirement is `nerve-adk`, then `>=` exactly when the value starts with a digit, then the value |
| `Models.BareVersionMeansAtLeast` | nerve/models.py:86-90 | a bare version means the same as `>=` that version |
| `Models.CheckRequiredVersion` | nerve/models.py:80-101 | no or empty requirement passes; otherwise the installed version must satisfy it, else an error naming both; success returns the value unchanged |
| `Models.ToolNames` | nerve/models.py:197 | one name per tool, in order |
| `Models.AddVariables` | nerve/models.py:200-217 | the loop adds exactly the template variables not excluded |
| `Models.GetInputs` | nerve/models.py:192-222 | the inputs are exactly the names the input rules admit, each mapped to its default or `None` |
| `Models.InputRules` | nerve/models.py:196-220 | `task` is an input when there is no task; a tool name is never an input, except `task` while no task is set; a name no template declares is an input exactly when it is `task` and no task is set |
| `Models.CountRunsConcat` | nerve/models.py:306-310 | counting runs of an outcome adds up over concatenation |
| `Models.CountRunsSplit` | nerve/models.py:307-310 | every run is counted as passed or failed, not both |
| `Models.CountCasesSplit` | nerve/models.py:307-310 | passed plus failed runs over all cases is the number of runs |
| `Models.CountCasesOther` | nerve/models.py:303-306 | changing a case outside the order leaves the counts alone |
| `Models.CountCasesUpdate` | nerve/models.py:306 | changing one case changes the counts by that case's difference |
| `Models.CasesAfterAdd` | nerve/models.py:302-306 | the case is created if missing, the run appended to it, and every other case kept |
| `Models.NormalizeIndex` | nerve/models.py:313 | Python's index rule: valid exactly in `[-len, len)`, negative indices counting from the end |
| `Models.RemoveAt` | nerve/models.py:319 | popping one run shortens the list by one |
| `Models.CountRunsRemoveAt` | nerve/models.py:313-319 | popping a run lowers exactly its own outcome's count by one |
| `Models.Evaluation.constructor` | nerve/models.py:277-282 | an evaluation starts with no cases and zero tallies, consistent |
| `Models.Evaluation.AddRun` | nerve/models.py:302-310 | the case gets the run and the matching tally goes up by one; consistency is kept |
| `Models.Evaluation.RemoveRun` | nerve/models.py:312-319 | a missing case or an out-of-range index is an error that changes nothing; otherwise the run is popped and its tally goes down by one; consistency is kept |
| `Models.TalliedCountsAllRuns` | nerve/models.py:302-319 | in a consistent evaluation, passed plus failed is the number of runs, and neither is negative |
| `Models.CasesAfterRemove` | nerve/models.py:313-319 | only the named case changes: it loses the run at the index and keeps its start time |
| `Models.CountSingleRun` | nerve/models.py:307-310 | a single run counts once for its own outcome |
| `Models.OrderedAfterAdd` | nerve/models.py:303-304 | adding a run keeps the case order listing every case once |
| `Models.CountAfterAddExisting` | nerve/models.py:306-310 | adding to an existing case adds one run of its outcome |
| `Models.CountAfterAddNew` | nerve/models.py:303-310 | adding to a new case adds one run of its outcome |
| `Models.AddRunCounts` | nerve/models.py:302-310 | after `add_run` every case is listed once and the run is counted once for its outcome |
| `Models.AddRunKeepsTally` | nerve/models.py:302-310 | `add_run` keeps the tallies equal to the counted runs |
| `Models.RemoveRunKeepsTally` | nerve/models.py:312-319 | `remove_run` keeps the tallies equal to the counted runs |
| `Models.AddThenRemoveRestoresCases` | nerve/models.py:302-319 | removing the run just added (the last of its case) restores the cases, except that a case the add created stays, empty |
| `Models.AddThenRemoveRestoresTally` | nerve/models.py:302-319 | adding a run and removing it again restores the tallies |
| `Runner.InputState.constructor` | nerve/runner.py:21 | the input state holds the caller's entries |
| `Runner.CommandLine` | nerve/runner.py:13-59 | the command starts with the binary, `run` and the input path; it has 15 words plus two for a timeout, one for quiet and two for a task; it ends with `--start-state`, the dumped state without `task`, `--trace` and the events file |
| `Runner.CreateCommandLine` | nerve/runner.py:13-59 | the command is the fixed prefix, `--timeout` when the timeout is truthy, `--quiet` when quiet, `--task` when the state has a task, then the start state without the task and the trace file; the caller's state loses `task` and nothing else |
| `Runner.ParseOptionalArgsRoundTrip` | nerve/runner.py:39-50 | the optional arguments can be read back as the timeout, the quiet flag and the task |
| `Runner.CommandLineRoundTrip` | nerve/runner.py:24-56 | parsing the command line gives back the binary, path, generator, conversation, steps, cost, optional flags, start state and trace file |
| `Runner.ParseThreeParts` | nerve/runner.py:24-56 | the prefix, the optional arguments and the four trailing ones are read back separately |
| `Runner.OptionsOf` | nerve/server/runner.py:14-28 | the `Arguments` fields carry over one for one |
| `Runner.CreateServerCommandLine` | nerve/server/runner.py:31-71 | the `Arguments` variant builds the same command line and removes `task` the same way |
| `Runner.LastEventWithName` | nerve/runner.py:62-66 | an event it returns is one of the events and carries the asked name |
| `Runner.LastEventWithNameSpec` | nerve/runner.py:62-66 | no result exactly when every event is named otherwise; otherwise the reverse scan stops at the last event not named otherwise and returns it, or the error raised reading its name |
| `Runner.ReasonStage` | nerve/runner.py:71-82 | a reason it returns is truthy; no event of that name gives nothing; an error reading the names propagates |
| `Runner.FlowStage` | nerve/runner.py:87-92 | a flow output is a non-empty dict none of whose keys is an input; no `flow_complete` event gives nothing |
| `Runner.NonInputVariables` | nerve/server/runner.py:101-102 | the flow outputs are exactly the variables that are not inputs, with their values |
| `Runner.LatestResponse` | nerve/runner.py:96-101 | a fallback output is a dict with the single key `response` or the single key `output` |
| `Runner.LatestResponseSpec` | nerve/server/runner.py:108-113 | the fallback answer is built from the latest text response or tool result, none exactly when no event gives one |
| `Runner.LatestResponseIsTruthy` | nerve/runner.py:96-101 | a fallback answer is a one-entry dict, so truthy |
| `Runner.GetOutputObject` | nerve/runner.py:69-103 | nothing is found exactly when all four stages find nothing; a task-complete result, when there is one, wins; a found object is truthy |
| `Runner.OutputObjectFacts` | nerve/server/runner.py:81-115 | a found output object is truthy; a flow output is a non-empty dict that excludes every input; a truthy task-complete reason is chosen before anything else |
| `Runner.OutputFallsThroughToLatest` | nerve/runner.py:69-103 | with no task-complete, task-failed or flow-complete event the output object is the latest response |
| `Runner.FinalOutput` | nerve/runner.py:189-198 | a found object is kept; otherwise a dict whose one key `output` holds text |
| `Runner.OutputState` | nerve/runner.py:202-209 | the output state has exactly the six keys command line, output, exit code, stdout, stderr and events, each holding the value it was built from |
| `Runner.FallbackRecoversLines` | nerve/server/runner.py:189-198 | the fallback text is stderr's lines when there are any, else stdout's, else the fixed message, with lines recoverable by splitting |
| `Runner.ChildRunner.constructor` | nerve/runner.py:107-133 | the runner's command line is built from the caller's state, which loses `task` |
| `Runner.ChildRunner.CollectOutput` | nerve/runner.py:189-211 | the result is the output state holding the extracted object, with the fallback, using the state left after `task` was removed; extraction errors propagate |
| `Runner.CollectedOutputIsTruthy` | nerve/server/runner.py:189-198 | whenever extraction succeeds, the collected output is truthy |
| `Serve.InputStateFromRequest` | nerve/cli/serve.py:35-45 | success exactly when every input has a non-`None` value from the request or its default; the state has the inputs' keys and those values; otherwise a 400 error naming a missing input |
| `Serve.DefaultsMakeInputsOptional` | nerve/cli/serve.py:39 | an input with a non-`None` default need not be sent; a sent value overrides it |
| `Serve.Stem` | nerve/cli/serve.py:103 | the stem is a prefix of the name |
| `Serve.StemDropsExtension` | nerve/cli/serve.py:103 | `<base>.<ext>` has stem `<base>` |
| `Serve.StemOfPlainName` | nerve/cli/serve.py:103 | a dot-free name is its own stem |
| `Serve.AgentName` | nerve/cli/serve.py:102-106 | the parent directory name for the stems agent, workflow and task; the stem otherwise |
| `Serve.ConventionalFileNamedAfterDirectory` | nerve/cli/serve.py:102-106 | `<dir>/agent.yml` is named `<dir>` |
| `Serve.OtherFileNamedAfterItself` | nerve/cli/serve.py:102-106 | `<dir>/<name>.yml` is named `<name>` for any other dot-free name |
| `Serve.ChooseMode` | nerve/cli/serve.py:311-314 | tools-only exactly when asked for or when the configuration has no prompt; tools served exactly when asked for or tools-only |
| `Serve.RestRoutes` | nerve/cli/serve.py:142-169 | one agent route unless tools-only, plus one route per tool when tools are served and the runtime exists |
| `Serve.RoutesFollowMode` | nerve/cli/serve.py:142-169 | the agent route `/` comes first unless tools-only; in tools-only mode every tool has its route |
| `Serve.WantsRawIffTrue` | nerve/cli/serve.py:62 | the full state is asked for exactly by `true` in any letter case; no parameter means no |
| `Serve.Response` | nerve/cli/serve.py:78-81 | the whole output state when asked for, else its `output` entry |
| `Serve.PlainReplyIsOutputObject` | nerve/cli/serve.py:78-81 | the plain reply to a run is its output object and cannot fail; without an object it is the fallback, a one-key dict whose `output` is text |
| `FilesystemW.Parents` | nerve/tools/namespaces/filesystem_w.py:25 | the parents of a path, nearest first: every proper prefix |
| `FilesystemW.AllowsIffPrefix` | nerve/tools/namespaces/filesystem_w.py:25 | a path is allowed by an entry exactly when the entry is a component-wise prefix of it |
| `FilesystemW.SiblingWithLongerNameNotAllowed` | nerve/tools/namespaces/filesystem_w.py:25 | `/a/bc` is not under `/a/b` |
| `FilesystemW.AnyAllows` | nerve/tools/namespaces/filesystem_w.py:23-28 | some jail entry allows the path |
| `FilesystemW.PathAllowed` | nerve/tools/namespaces/filesystem_w.py:17-28 | an empty jail allows everything; otherwise allowed exactly when some resolved jail entry is the path or one of its parents |
| `FilesystemW.AllowedBelow` | nerve/tools/namespaces/filesystem_w.py:17-28 | whatever lies below an allowed path is allowed |
| `FilesystemW.PathAcl` | nerve/tools/namespaces/filesystem_w.py:31-33 | an error exactly when the path is not allowed, with the access-denied message |
| `FilesystemW.LastIndexOf` | nerve/tools/namespaces/filesystem_w.py:56 | the last occurrence of a character, none exactly when absent |
| `FilesystemW.LastIndexOfAt` | nerve/tools/namespaces/filesystem_w.py:56 | an occurrence with none after it is the last |
| `FilesystemW.RStripSlashes` | nerve/tools/namespaces/filesystem_w.py:56 | only trailing slashes are dropped, all of them |
| `FilesystemW.Dirname` | nerve/tools/namespaces/filesystem_w.py:56-57 | the parent part is a prefix of the path, and is empty exactly when the path contains no `/` |
| `FilesystemW.ResponseStart` | nerve/tools/namespaces/filesystem_w.py:57-59 | the response opens with the parent notice exactly when the parent was created |
| `FilesystemW.ResponseEnd` | nerve/tools/namespaces/filesystem_w.py:66-69 | the response ends in `updated.` exactly when the file existed, else in `created.` |
| `FilesystemW.CreateResponse` | nerve/tools/namespaces/filesystem_w.py:53-71 | the parent notice comes first exactly when the parent was created and names it; the ending says updated exactly when the file existed |
| `FilesystemW.Disk.constructor` | nerve/tools/namespaces/filesystem_w.py:43-48 | the disk holds the given files and directories |
| `FilesystemW.Disk.CreateFile` | nerve/tools/namespaces/filesystem_w.py:43-71 | the access check comes before any effect; then a missing non-empty parent is created, the file written with the content or empty text, and the response built; writing onto a directory fails, and so does writing below a parent that is a regular file, with nothing written |
| `FilesystemW.RemoveError` | nerve/tools/namespaces/filesystem_w.py:79 | `os.remove` on a path that is not a file raises: a directory error for a directory, a not-a-directory error below a regular file, and file-not-found otherwise |
| `FilesystemW.Disk.DeleteFile` | nerve/tools/namespaces/filesystem_w.py:74-80 | the access check comes before any effect; then the file is removed with the deleted response, or `os.remove`'s error is returned with nothing changed |
| `Shell.Encode` | nerve/tools/namespaces/shell.py:26 | ASCII text encodes byte for byte |
| `Shell.IntToStringAscii` | nerve/tools/namespaces/shell.py:26 | a rendered return code is ASCII without a line break |
| `Shell.LabelsAreEncodedText` | nerve/tools/namespaces/shell.py:26-29 | the two labels are the encoded `\nEXIT CODE: ` and `\nERROR: ` |
| `Shell.ReturnCodeBytes` | nerve/tools/namespaces/shell.py:26 | the encoded return code has no newline byte |
| `Shell.RawOutput` | nerve/tools/namespaces/shell.py:23-29 | the output starts with stdout, is stdout alone for a zero return code with empty stderr, and is exactly as long as its three parts |
| `Shell.AssembleOutput` | nerve/tools/namespaces/shell.py:23-29 | the accumulated output is stdout, then the exit code part, then the error part |
| `Shell.RawOutputLayout` | nerve/tools/namespaces/shell.py:23-29 | the output starts with stdout (empty when missing); `EXIT CODE` appears exactly for a non-zero return code and `ERROR` exactly for non-empty stderr, after it |
| `Shell.NatToStringInjective` | nerve/tools/namespaces/shell.py:26 | different numbers render differently |
| `Shell.IntToStringInjective` | nerve/tools/namespaces/shell.py:26 | different return codes render differently |
| `Shell.EncodeInjective` | nerve/tools/namespaces/shell.py:26 | encoding ASCII text loses nothing |
| `Shell.ErrorPartInjective` | nerve/tools/namespaces/shell.py:28-29 | the error part determines whether stderr was non-empty and what it was |
| `Shell.RawOutputDecodable` | nerve/tools/namespaces/shell.py:23-29 | given stdout, the output determines whether the command failed, its return code, and its stderr |
| `Shell.TailAfterStdout` | nerve/tools/namespaces/shell.py:25-29 | after stdout come the exit code part and the error part |
| `Shell.TailDecodable` | nerve/tools/namespaces/shell.py:25-29 | the tail after stdout determines the return code when non-zero and the error part |
| `Shell.ThirdByte` | nerve/tools/namespaces/shell.py:26-29 | the third byte of the tail tells the exit code part from the error part |
| `Shell.SameDigitsBeforeNewline` | nerve/tools/namespaces/shell.py:26-29 | newline-free digits followed by a newline-led tail split uniquely |
| `Shell.FirstNewlineUnique` | nerve/tools/namespaces/shell.py:26-29 | the first newline of a byte string is at one position |
| `Shell.MaybeText` | nerve/tools/namespaces/shell.py:9-13 | text exactly when the bytes decode, then stripped; otherwise the bytes unchanged |
| `Shell.MaybeTextIsStripped` | nerve/tools/namespaces/shell.py:9-13 | decoded output has no surrounding whitespace |
| `Shell.ExecuteShellCommand` | nerve/tools/namespaces/shell.py:16-31 | the result is `_maybe_text` of the assembled output |
| `AbEval.TokenTextRoundTrip` | examples/ab_problem/eval.py:7-12 | every word is read back from its token, and a word is one of `TOKENS` exactly when its token is not a plain word |
| `AbEval.ToTerm` | examples/ab_problem/eval.py:91 | one token per word, in order |
| `AbEval.Texts` | examples/ab_problem/eval.py:104 | one word per token, in order |
| `AbEval.TextsOfTerm` | examples/ab_problem/eval.py:91-104 | reading words into tokens and back loses nothing, so term comparison is word-list comparison |
| `AbEval.Pass` | examples/ab_problem/eval.py:15-48 | one pass never lengthens the term |
| `AbEval.Rewrites` | examples/ab_problem/eval.py:15-48 | each rewrite consumes two tokens, so a pass fires at most half as many rules as the term has tokens |
| `AbEval.PassAt` | examples/ab_problem/eval.py:22-46 | at each position the pass either rewrites the pair and moves on by two, or keeps the token and moves on by one |
| `AbEval.PassFront` | examples/ab_problem/eval.py:22-46 | the first step of a pass |
| `AbEval.ReduceStep` | examples/ab_problem/eval.py:21-46 | one loop iteration keeps the output so far plus the pass over the rest equal to the whole pass |
| `AbEval.Reduce` | examples/ab_problem/eval.py:15-48 | `reduce` returns the one-pass rewrite and the number of rules fired; the cursor moves by two past a rewritten pair, by one otherwise |
| `AbEval.NormalFormCons` | examples/ab_problem/eval.py:24-43 | a term is in normal form exactly when its first pair has no rule and the rest is in normal form |
| `AbEval.PassFacts` | examples/ab_problem/eval.py:21-48 | a pass fires nothing exactly on a normal form, and then returns the term unchanged; it never lengthens a term |
| `AbEval.CountConcat` | examples/ab_problem/eval.py:21-46 | token counts add up over concatenation |
| `AbEval.CountShort` | examples/ab_problem/eval.py:24-43 | the token counts of a pair |
| `AbEval.RuleCount` | examples/ab_problem/eval.py:24-43 | a rule adds no token |
| `AbEval.RuleKeepsBalances` | examples/ab_problem/eval.py:24-43 | a rule keeps both balances: `A#` minus `#A`, and `B#` minus `#B` |
| `AbEval.BalancesConcat` | examples/ab_problem/eval.py:21-46 | the balances add up over concatenation |
| `AbEval.PassCount` | examples/ab_problem/eval.py:21-48 | a pass never adds a token of any kind |
| `AbEval.PassKeepsBalances` | examples/ab_problem/eval.py:21-48 | a pass keeps both balances |
| `AbEval.InversionsCons` | examples/ab_problem/eval.py:24-43 | how a leading token contributes to the inversion count |
| `AbEval.RuleMeasure` | examples/ab_problem/eval.py:24-43 | a rule lowers the measure by more than the rest of the pass does |
| `AbEval.FacingPairMeasure` | examples/ab_problem/eval.py:24-43 | the measure of a term starting with a right-facing then a left-facing token |
| `AbEval.SwappedPairMeasure` | examples/ab_problem/eval.py:26-33 | the measure of a term starting with a swapped pair |
| `AbEval.MeasureWhenFiring` | examples/ab_problem/eval.py:24-43 | a rule firing at the front lowers the measure by one more step |
| `AbEval.MeasureWhenKeeping` | examples/ab_problem/eval.py:44-46 | keeping the front token lowers the measure as much as the rest does |
| `AbEval.PassMeasure` | examples/ab_problem/eval.py:15-48 | a pass lowers the measure by at least the number of rules it fires, so `solve` terminates |
| `AbEval.SolveTerm` | examples/ab_problem/eval.py:51-63 | the fixpoint is in normal form and no longer than the program |
| `AbEval.SolveSteps` | examples/ab_problem/eval.py:51-63 | no rule fires exactly when the program is already in normal form |
| `AbEval.Solve` | examples/ab_problem/eval.py:51-63 | `solve` returns the fixpoint term and the total number of rules fired |
| `AbEval.SolveFacts` | examples/ab_problem/eval.py:51-63 | the solved term is in normal form, no longer than the program, with the same balances; solving it again changes nothing; no step was needed exactly for a normal form |
| `AbEval.PassKeepsTokensValid` | examples/ab_problem/eval.py:24-46 | a pass over valid tokens yields valid tokens |
| `AbEval.SolveKeepsTokensValid` | examples/ab_problem/eval.py:51-63 | a valid program solves to a valid term |
| `AbEval.Tokenize` | examples/ab_problem/eval.py:75 | the tokens' words are the stripped text split on single spaces |
| `AbEval.GetSolution` | examples/ab_problem/eval.py:66-77 | an error reading `type` propagates; a solution comes only from a message of type `agent` |
| `AbEval.GetSolutionFacts` | examples/ab_problem/eval.py:66-77 | a solution comes only from an agent message whose `data[1]` has action `solution` and a string payload, and is that payload's tokens; any other message type has none |
| `AbEval.NoSolutionAfterSnoc` | examples/ab_problem/eval.py:100-103 | no solution after an index in a longer history means none in the shorter one and none in the last message |
| `AbEval.LatestSolution` | examples/ab_problem/eval.py:100-112 | anything but "no solution" needs a message; the last message decides whenever it proposes a solution or raises |
| `AbEval.LatestSolutionSpec` | examples/ab_problem/eval.py:100-115 | no solution exactly when no message proposes one; otherwise it is the solution of a message after which none proposes one; an exception stops the scan |
| `AbEval.Judge` | examples/ab_problem/eval.py:103-118 | never "invalid program"; correct exactly when the solution equals the solved program; no solution exactly when none was found; invalid exactly when a wrong solution has a token outside `TOKENS` |
| `AbEval.HasInvalidToken` | examples/ab_problem/eval.py:92 | the scan finds a token outside `TOKENS` exactly when there is one |
| `AbEval.JudgeHistory` | examples/ab_problem/eval.py:97-118 | the reversed-history loop judges the most recent solution, or passes on the exception that stopped it |
| `AbEval.Outcome` | examples/ab_problem/eval.py:88-118 | the verdict is "invalid program" exactly when the program can be read and holds a token outside the four |
| `AbEval.Evaluate` | examples/ab_problem/eval.py:88-118 | the main block on the decoded state: invalid programs rejected, then the latest solution judged against the solved program |
| `AbEval.CorrectMeansNormalForm` | examples/ab_problem/eval.py:91-105 | exit 42 exactly when the program is valid and the latest solution is its normal form; such a solution is valid and in normal form |
| `PyValues.GetItem` | nerve/runner.py:64 | `v[key]` succeeds exactly on a dict holding the key; otherwise `KeyError` on a dict, `TypeError` elsewhere |
| `PyValues.GetIndex` | examples/ab_problem/eval.py:71 | `v[i]` on a list or a string within bounds; `KeyError` on a dict; an error otherwise |
| `PyValues.DictGet` | nerve/runner.py:73 | `.get` succeeds exactly on a dict, with the value or the default; otherwise `AttributeError` |
| `Strings.TrimWithFacts` | src/agent/generator/groq.rs:129 | trimming never lengthens; it gives empty exactly for all-whitespace text; the result has no whitespace at either end; an already trimmed string is unchanged |
| `Strings.TrimEmptyIffAllDropped` | src/agent/generator/openai.rs:243-246 | trimmed text is empty exactly when every character was whitespace |
| `Strings.TrimWithIdempotent` | src/agent/generator/groq.rs:129 | trimming twice is trimming once |
| `Strings.TrimWithOf` | src/agent/generator/groq.rs:353 | trimming removes exactly a droppable prefix and suffix around a core that neither starts nor ends with one |
| `Strings.Split` | examples/ab_problem/eval.py:75 | `split` on one character gives non-empty output with no separator inside a piece |
| `Strings.JoinSplit` | nerve/runner.py:194 | joining the split pieces gives the text back |
| `Strings.SplitJoin` | nerve/runner.py:194-196 | splitting joined separator-free pieces gives them back |
| `Strings.NatToStringRoundTrip` | nerve/runner.py:34 | the decimal rendering reads back as the number |
| `Strings.IntToString` | nerve/tools/namespaces/shell.py:26 | `str` of an integer: a sign for negatives, then the decimal digits |
| `Strings.LowerAscii` | nerve/cli/serve.py:62 | lowering keeps the length and maps only ASCII capitals |

## Left out

- Network and provider calls (`Groq::create`, `chat_completion_create`, `embeddings_create`) are not modelled. Their results are input datatypes (`GroqReply`, `ChatReply`, `ProbeReply`, `EmbedReply`). The Groq embedder is `todo!()` and is not modelled.
- The environment-variable lookups for API keys (the `Missing GROQ_API_KEY` errors) and client construction are left out. They have no logic beyond a lookup.
- `check_rate_limit` lives in src/agent/generator/mod.rs, which is not part of this model. Its yes/no answer is the `shouldRetry` parameter. The sleep and the recursive re-issue of the call are the `RetryRequested`/`EmbedRetry` outcomes. Only the message pattern it uses is modelled, as `RetryPattern`.
- The double `state.lock().await` read of the native-tools flag and the namespaces is concurrency. The model reads one snapshot.
- Foreign parsers and serialisers are parameters or inputs; the model does not describe them:
  - serde_json and `json.loads`/`json.dumps`;
  - jinja2 `find_undeclared_variables`;
  - `packaging.Requirement` matching;
  - UTF-8 decoding;
  - `Path.resolve` (symlinks, the working directory, `..`).
- `OpenAI.Rendered`: `ActionOutput::trim`, which the request loop calls, is not in the files modelled here. The model assumes it trims the `Display` rendering.
- `Models.StartsWithDigit` accepts ASCII digits only. Python's `isdigit` also accepts other Unicode digits.
- `PyValues.PyValue`: JSON numbers with a fraction are `PyFloat` reals. NaN, the infinities and float rounding are not modelled.
- `Models.AddUsage`: `cost` is a real number, not a float; rounding is not modelled. `str(max_cost)` is carried as text in `Runner.RunOptions`.
- HashMap and dict iteration order is not modelled. The map loops (`Models.GetInputs`, `Serve.InputStateFromRequest`, `ToolSchema.AddAttributeParameters`, `ToolCalls.DecodeArguments`) choose keys with `:|`, and their contracts state the order-independent result.
- `Serve.InputStateFromRequest`: when several inputs are missing, the model names one of them; the source names the first in dict order.
- `ToolSchema.SchemaDeterminedUpToKeyOrder`: two schemas of one action may list attribute keys in different orders, because the order of `attrs.keys()` is not modelled.
- Whitespace for Rust `trim` and Python `strip` is limited to the Latin-1 range. Unicode whitespace beyond it is not modelled.
- `repr` escaping inside the access-denied message is not modelled. `FilesystemW.ReprList` quotes each entry without escaping.
- `FilesystemW.Disk.CreateFile`: a missing parent is added as one directory. `os.makedirs` fails with `NotADirectoryError` when a more distant ancestor is a regular file; the model creates the parent anyway. Only a parent that is itself a regular file is an error.
- `os.makedirs` creating intermediate ancestors, permission errors, and path aliasing (two spellings of one file) are not modelled. The `Disk` addresses files by the path string `os.path` receives.
- `subprocess.run`, its 30-second timeout and the stream readers in `Runner.run` are not modelled. The completed process (stdout, return code, stderr) and the child's output lines are inputs.
- MCP serving, FastAPI/uvicorn wiring, tool endpoints, logging and the `eval`/`agents` CLI loops are plumbing and are not modelled.
- `Configuration.from_path`, YAML parsing, `Evaluation.build`/`save_to`/`load_from` and `Workflow` are left out. They are file I/O and parsing.
- Only `task_success` of a run's `Output`, and only `passed`/`failed` of `Evaluation.Statistics`, are modelled. The other fields are set once and never changed by the bookkeeping.
- `examples/ab_problem/eval.py` is modelled on the decoded JSON state: reading stdin is the input. Printing and `exit` are the `Verdict` and its `ExitStatus`. The `print(message); raise e` path is the error result.
- src/agent/generator/deepseek.rs only delegates to the OpenAI client and is not modelled. The event definitions (src/agent/events/mod.rs) carry no behaviour and are not modelled.
- `RetryPattern.RetryAfterStandardLine` is stated over match positions, with `RetryPattern.StandardParts` linking them to the five-part form of a line. It does not also quantify over every way of writing the line as such parts.
