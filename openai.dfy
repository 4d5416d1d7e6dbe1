/**
 * The OpenAI-compatible adapter (src/agent/generator/openai.rs) without its
 * HTTP client: the optional tool list, history translation (no tool ids,
 * trimmed text, a filler for empty feedback), the capability-probe decision,
 * reply decoding with usage mapping, and the embedding reply.
 */
module OpenAI {
  import opened Wrappers
  import opened Strings
  import opened Namespaces
  import opened Generator
  import opened ToolSchema
  import opened ToolCalls

  datatype Role = System | User | Assistant

  /** A request message; `tool_calls` is always `None` in what the adapter sends. */
  datatype OpenAIMessage = OpenAIMessage(role: Role, content: Option<string>)

  // ---------------------------------------------------------------------------
  // Tools

  /** `get_tools_if_supported`: every action's schema when native tools are enabled, else nothing. */
  method GetToolsIfSupported(useNativeTools: bool, namespaces: seq<Namespace>) returns (tools: seq<Tool>)
    ensures !useNativeTools ==> tools == []
    ensures useNativeTools ==> |tools| == |AllActions(namespaces)|
    ensures useNativeTools ==> forall i :: 0 <= i < |tools| ==> SchemaOf(AllActions(namespaces)[i], tools[i])
  {
    tools := [];
    if useNativeTools {
      tools := BuildTools(namespaces);
    }
  }

  /** The `tools` field of the chat body: an empty list is not sent at all. */
  function RequestTools(tools: seq<Tool>): (r: Option<seq<Tool>>)
    ensures r.None? <==> tools == []
    ensures r.Some? ==> r.value == tools
  {
    if tools == [] then None else Some(tools)
  }

  /**
   * The request carries tools exactly when native tools are enabled and the
   * registry has at least one action.
   */
  lemma ToolsSentIff(useNativeTools: bool, namespaces: seq<Namespace>, tools: seq<Tool>)
    requires !useNativeTools ==> tools == []
    requires useNativeTools ==> |tools| == |AllActions(namespaces)|
    ensures RequestTools(tools).Some? <==> useNativeTools && AllActions(namespaces) != []
  {
  }

  // ---------------------------------------------------------------------------
  // History translation

  /** The seed turns: the trimmed system prompt, if any, then the trimmed prompt. */
  function Seed(options: ChatOptions): (s: seq<OpenAIMessage>)
    ensures |s| == if options.systemPrompt.Some? then 2 else 1
    ensures s[|s| - 1] == OpenAIMessage(User, Some(RustTrim(options.prompt)))
    ensures options.systemPrompt.Some? ==> s[0] == OpenAIMessage(System, Some(RustTrim(options.systemPrompt.value)))
  {
    match options.systemPrompt
    case Some(sp) => [OpenAIMessage(System, Some(RustTrim(sp))), OpenAIMessage(User, Some(RustTrim(options.prompt)))]
    case None => [OpenAIMessage(User, Some(RustTrim(options.prompt)))]
  }

  const NoOutput := "<no output>"

  /** A feedback text as sent: the text itself, or the filler when it is empty. */
  function FillEmpty(content: string): (c: string)
    ensures c != []
  {
    if content == [] then NoOutput else content
  }

  /** The text an entry is rendered to before trimming: the agent's text, or the output's `Display`. */
  function Rendered(m: Message): string {
    match m
    case Agent(text, _) => text
    case Feedback(output, _) => Display(output)
  }

  /**
   * The request message for one history entry: agent turns become assistant
   * messages with their trimmed text, feedback becomes user messages whose
   * content is never empty.
   */
  function TranslateEntry(m: Message): (r: OpenAIMessage)
    ensures r.role == (if m.Agent? then Assistant else User)
    ensures m.Agent? ==> r.content == Some(RustTrim(m.text))
    ensures m.Feedback? ==> r.content.Some? && r.content.value != []
  {
    var t := RustTrim(Rendered(m));
    if m.Agent? then OpenAIMessage(Assistant, Some(t)) else OpenAIMessage(User, Some(FillEmpty(t)))
  }

  /** The messages for the first `i` history entries. */
  ghost function Translated(h: seq<Message>, i: nat): seq<OpenAIMessage>
    requires i <= |h|
    decreases i
  {
    if i == 0 then [] else Translated(h, i - 1) + [TranslateEntry(h[i - 1])]
  }

  /** Indexing a sequence with one element appended. */
  lemma SnocAt<T>(prev: seq<T>, last: T, k: nat)
    requires k <= |prev|
    ensures (prev + [last])[k] == if k < |prev| then prev[k] else last
  {
  }

  /** The translation keeps the history's length and order: entry `k` becomes message `k`. */
  lemma {:induction false} TranslatedPointwise(h: seq<Message>, i: nat)
    requires i <= |h|
    ensures |Translated(h, i)| == i
    ensures forall k :: 0 <= k < i ==> Translated(h, i)[k] == TranslateEntry(h[k])
    decreases i
  {
    if i > 0 {
      TranslatedPointwise(h, i - 1);
      var prev := Translated(h, i - 1);
      var last := TranslateEntry(h[i - 1]);
      assert Translated(h, i) == prev + [last];
      forall k | 0 <= k < i ensures (prev + [last])[k] == TranslateEntry(h[k]) {
        SnocAt(prev, last, k);
      }
    }
  }

  /** The `chat_history` built by `chat`: the seed, then one message per history entry. */
  method TranslateHistory(options: ChatOptions) returns (history: seq<OpenAIMessage>)
    ensures history == Seed(options) + Translated(options.history, |options.history|)
  {
    history := AppendHistory(Seed(options), options.history);
  }

  /** The body of the translation loop. */
  method TranslateStep(m: Message) returns (message: OpenAIMessage)
    ensures message == TranslateEntry(m)
  {
    match m {
      case Agent(data, _) =>
        message := OpenAIMessage(Assistant, Some(RustTrim(data)));
      case Feedback(data, _) =>
        var content := RustTrim(Display(data));
        if content == [] {
          content := NoOutput;
        }
        message := OpenAIMessage(User, Some(content));
    }
  }

  /** The `for m in options.history` loop. */
  method AppendHistory(seed: seq<OpenAIMessage>, h: seq<Message>) returns (history: seq<OpenAIMessage>)
    ensures history == seed + Translated(h, |h|)
  {
    history := seed;
    var i := 0;
    while i < |h|
      invariant 0 <= i <= |h|
      invariant history == seed + Translated(h, i)
    {
      var message := TranslateStep(h[i]);
      assert Translated(h, i + 1) == Translated(h, i) + [message];
      history := history + [message];
      i := i + 1;
    }
  }

  /**
   * Translation loses the invocations: the invocation attached to a turn
   * does not change its message. Text feedback is sent trimmed, or as the
   * filler when only whitespace is left.
   */
  lemma TranslationRules(m: Message, inv: Option<Invocation>)
    ensures m.Agent? ==> TranslateEntry(m) == TranslateEntry(Agent(m.text, inv))
    ensures m.Feedback? ==> TranslateEntry(m) == TranslateEntry(Feedback(m.output, inv))
    ensures m.Feedback? && m.output.Text? && RustTrim(m.output.text) != [] ==>
      TranslateEntry(m).content == Some(RustTrim(m.output.text))
    ensures m.Feedback? && m.output.Text? && RustTrim(m.output.text) == [] ==>
      TranslateEntry(m).content == Some(NoOutput)
  {
  }

  /** An image is sent as its rendering, which trimming leaves untouched. */
  lemma ImageFeedbackSentAsRendered(data: string, mimeType: string, inv: Option<Invocation>)
    ensures TranslateEntry(Feedback(Image(data, mimeType), inv)).content
         == Some("image: " + data + " (" + mimeType + ")")
  {
    var r := Display(Image(data, mimeType));
    assert r[0] == 'i' && r[|r| - 1] == ')';
    TrimWithFacts(r, RustWhitespace);
  }

  /** Translated content never begins or ends with whitespace. */
  lemma TranslatedIsTrimmed(m: Message)
    ensures var c := TranslateEntry(m).content.value;
      c != [] ==> !IsRustWhitespace(c[0]) && !IsRustWhitespace(c[|c| - 1])
  {
    match m
    case Agent(text, _) =>
      TrimWithFacts(text, RustWhitespace);
    case Feedback(output, _) =>
      TrimWithFacts(Display(output), RustWhitespace);
      if RustTrim(Display(output)) == [] {
        assert NoOutput[0] == '<' && NoOutput[|NoOutput| - 1] == '>';
      }
  }

  // ---------------------------------------------------------------------------
  // The capability probe

  /** A reply message: optional content and optional tool calls. */
  datatype ReplyMessage = ReplyMessage(content: Option<string>, toolCalls: Option<seq<WireCall>>)

  datatype ReplyChoice = ReplyChoice(message: Option<ReplyMessage>)

  /** What `chat_completion_create` returns for the trial request: its error text, or the choices. */
  datatype ProbeReply = ProbeFailed(error: string) | ProbeCompleted(choices: seq<ReplyChoice>)

  const UnsupportedValue := "unsupported_value"
  const NoSystemRole := "does not support 'system' with this model"

  /** The trial reply contains a non-empty tool-call list in its first choice. */
  predicate ReturnedToolCall(reply: ProbeReply) {
    && reply.ProbeCompleted?
    && reply.choices != []
    && reply.choices[0].message.Some?
    && reply.choices[0].message.value.toolCalls.Some?
    && reply.choices[0].message.value.toolCalls.value != []
  }

  /** The error says the model rejects the system role. */
  predicate RejectsSystemRole(reply: ProbeReply) {
    reply.ProbeFailed? && Contains(reply.error, UnsupportedValue) && Contains(reply.error, NoSystemRole)
  }

  /** `check_supported_features`. */
  function ProbeFeatures(reply: ProbeReply): (f: SupportedFeatures)
    ensures f.tools <==> ReturnedToolCall(reply)
    ensures !f.systemPrompt <==> RejectsSystemRole(reply)
  {
    if ReturnedToolCall(reply) then SupportedFeatures(true, true)
    else if reply.ProbeFailed? then SupportedFeatures(!RejectsSystemRole(reply), false)
    else SupportedFeatures(true, false)
  }

  /**
   * The probe never reports both tools and a missing system role; a
   * successful reply never disables the system prompt; an error whose text
   * lacks either marker leaves the system prompt on.
   */
  lemma ProbeConsistency(reply: ProbeReply)
    ensures ProbeFeatures(reply).tools ==> ProbeFeatures(reply).systemPrompt
    ensures reply.ProbeCompleted? ==> ProbeFeatures(reply).systemPrompt
    ensures reply.ProbeFailed? ==> !ProbeFeatures(reply).tools
    ensures reply.ProbeFailed? && !Contains(reply.error, UnsupportedValue) ==> ProbeFeatures(reply).systemPrompt
  {
  }

  // ---------------------------------------------------------------------------
  // Replies

  /** The usage counters of a reply, as far as the provider reported them. */
  function MapUsage(promptTokens: Option<nat>, completionTokens: Option<nat>): (u: Option<Usage>)
    ensures u.Some? <==> promptTokens.Some?
    ensures u.Some? ==> u.value.inputTokens == promptTokens.value
    ensures u.Some? ==> u.value.outputTokens == completionTokens.GetOr(0)
  {
    match promptTokens
    case Some(p) => Some(Usage(p, completionTokens.GetOr(0)))
    case None => None
  }

  /** A tool call as this API returns it: name and argument text are always present. */
  datatype OpenAICall = OpenAICall(name: string, arguments: ParsedArgs)

  function ToWire(c: OpenAICall): WireCall {
    WireCall(Some(c.name), Some(c.arguments))
  }

  function ToWireAll(calls: seq<OpenAICall>): (w: seq<WireCall>)
    ensures |w| == |calls| && forall k :: 0 <= k < |calls| ==> w[k] == ToWire(calls[k])
  {
    seq(|calls|, k requires 0 <= k < |calls| => ToWire(calls[k]))
  }

  /** What `chat_completion_create` returns for a chat request. */
  datatype ChatReply =
    | ChatFailed(error: string)
    | ChatCompleted(choices: seq<ReplyChoice>, promptTokens: Option<nat>, completionTokens: Option<nat>)

  /** The reply text and the tool calls of a choice; a choice without a message has neither. */
  function ChoiceParts(c: ReplyChoice): (string, seq<WireCall>) {
    match c.message
    case None => ("", [])
    case Some(m) => (m.content.GetOr(""), if m.toolCalls.Some? then m.toolCalls.value else [])
  }

  /**
   * The tail of `chat`. Every provider error goes to the rate-limit check
   * `shouldRetry`; answering yes stands for sleeping and re-issuing the call.
   */
  method DecodeReply(reply: ChatReply, shouldRetry: string -> bool) returns (outcome: ChatOutcome)
    ensures outcome.RetryRequested? <==> reply.ChatFailed? && shouldRetry(reply.error)
    ensures reply.ChatFailed? && !shouldRetry(reply.error) ==> outcome == Failed(ProviderError(reply.error))
    ensures reply.ChatCompleted? && reply.choices == [] ==> outcome == Failed(Panic(NoChoicesPanic))
    ensures outcome.Done? <==>
      reply.ChatCompleted? && reply.choices != [] && DecodeCalls(ChoiceParts(reply.choices[0]).1).Ok?
    ensures outcome.Done? ==> outcome.response == ChatResponse(
      ChoiceParts(reply.choices[0]).0,
      DecodeCalls(ChoiceParts(reply.choices[0]).1).value,
      MapUsage(reply.promptTokens, reply.completionTokens))
    ensures reply.ChatCompleted? && reply.choices != [] && DecodeCalls(ChoiceParts(reply.choices[0]).1).Err? ==>
      outcome == Failed(Unparseable(DecodeCalls(ChoiceParts(reply.choices[0]).1).error))
  {
    match reply {
      case ChatFailed(error) =>
        if shouldRetry(error) {
          return RetryRequested;
        }
        return Failed(ProviderError(error));
      case ChatCompleted(choices, promptTokens, completionTokens) =>
        if choices == [] {
          return Failed(Panic(NoChoicesPanic));
        }
        var content := "";
        var toolCalls: Option<seq<WireCall>> := None;
        if choices[0].message.Some? {
          var m := choices[0].message.value;
          content := m.content.GetOr("");
          toolCalls := m.toolCalls;
        }
        var calls: seq<WireCall> := [];
        if toolCalls.Some? {
          calls := toolCalls.value;
        }
        var decoded := DecodeAllCalls(calls);
        if decoded.Err? {
          return Failed(Unparseable(decoded.error));
        }
        return Done(ChatResponse(content, decoded.value, MapUsage(promptTokens, completionTokens)));
    }
  }

  /** Calls of this API always name their action, so no invocation falls back to the empty name. */
  lemma OpenAICallsKeepNames(calls: seq<OpenAICall>)
    requires DecodeCalls(ToWireAll(calls)).Ok?
    ensures forall k :: 0 <= k < |calls| ==> DecodeCalls(ToWireAll(calls)).value[k].action == calls[k].name
  {
  }

  /**
   * One malformed argument text aborts the whole reply, even when other
   * calls are well formed.
   */
  lemma MalformedCallAborts(calls: seq<OpenAICall>, k: nat)
    requires k < |calls| && calls[k].arguments.Malformed?
    ensures DecodeCalls(ToWireAll(calls)).Err?
  {
    assert IsMalformed(ToWireAll(calls)[k]);
  }

  // ---------------------------------------------------------------------------
  // Embeddings

  datatype EmbeddingItem = EmbeddingItem(embedding: Option<seq<real>>)

  datatype EmbedReply = EmbedFailed(error: string) | EmbedCompleted(data: Option<seq<EmbeddingItem>>)

  datatype EmbedOutcome = Embedded(vector: seq<real>) | EmbedError(error: ChatError) | EmbedRetry

  /** `embed` after the provider call: the first embedding, an empty vector when it carries none. */
  function EmbedOutcomeOf(reply: EmbedReply, shouldRetry: string -> bool): (r: EmbedOutcome)
    ensures r.EmbedRetry? <==> reply.EmbedFailed? && shouldRetry(reply.error)
    ensures reply.EmbedFailed? && !shouldRetry(reply.error) ==> r == EmbedError(ProviderError(reply.error))
    ensures r.Embedded? <==> reply.EmbedCompleted? && reply.data.Some? && reply.data.value != []
    ensures r.Embedded? ==> r.vector == reply.data.value[0].embedding.GetOr([])
    ensures reply.EmbedCompleted? && !r.Embedded? ==> r == EmbedError(Panic(NoChoicesPanic))
  {
    match reply
    case EmbedFailed(error) => if shouldRetry(error) then EmbedRetry else EmbedError(ProviderError(error))
    case EmbedCompleted(data) =>
      if data.None? || data.value == [] then EmbedError(Panic(NoChoicesPanic))
      else Embedded(data.value[0].embedding.GetOr([]))
  }
}
