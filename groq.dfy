/**
 * The Groq adapter (src/agent/generator/groq.rs) without its HTTP client:
 * translating ChatOptions into Groq messages with per-call tool ids, the
 * optional tool list, the capability-probe result, and turning the
 * provider's reply (given as a value) into a chat outcome.
 */
module Groq {
  import opened Wrappers
  import opened Strings
  import opened Namespaces
  import opened Generator
  import opened ToolSchema
  import opened ToolCalls

  /** The Groq wire messages the adapter builds; roles are implied by the constructor. */
  datatype GroqMessage =
    | SystemMessage(content: Option<string>)
    | UserMessage(content: Option<string>, toolCallId: Option<string>, imageUrl: Option<string>)
    | AssistantMessage(content: Option<string>, toolCallId: Option<string>)
    | ToolMessage(content: Option<string>, toolCallId: Option<string>)

  // ---------------------------------------------------------------------------
  // Images

  predicate IsWebUrl(data: string) {
    StartsWith(data, "http://") || StartsWith(data, "https://")
  }

  /** The `image_url.url` of an image feedback: a web URL verbatim, anything else as a base64 data URI. */
  function ImageUrl(data: string, mimeType: string): string {
    if IsWebUrl(data) then data else "data:" + mimeType + ";base64," + data
  }

  /**
   * The URL is a web URL exactly when the data was one, always ends with the
   * data, and is either the data itself or a `data:` URI carrying the MIME type.
   */
  lemma ImageUrlShape(data: string, mimeType: string)
    ensures IsWebUrl(ImageUrl(data, mimeType)) <==> IsWebUrl(data)
    ensures ImageUrl(data, mimeType) == data <==> IsWebUrl(data)
    ensures var url := ImageUrl(data, mimeType);
      |data| <= |url| && url[|url| - |data|..] == data
    ensures !IsWebUrl(data) ==> StartsWith(ImageUrl(data, mimeType), "data:" + mimeType + ";base64,")
  {
    var url := ImageUrl(data, mimeType);
    if !IsWebUrl(data) {
      assert url[..5] == "data:";
      assert url[..7] != "http://" by { assert url[0] != "http://"[0]; }
      assert url[..8] != "https://" by { assert url[0] != "https://"[0]; }
      assert |url| > |data|;
    }
  }

  // ---------------------------------------------------------------------------
  // History translation

  /** The turns that open every request: the trimmed system prompt, if any, then the trimmed prompt. */
  function Seed(options: ChatOptions): (s: seq<GroqMessage>)
    ensures |s| == if options.systemPrompt.Some? then 2 else 1
    ensures s[|s| - 1] == UserMessage(Some(RustTrim(options.prompt)), None, None)
    ensures options.systemPrompt.Some? ==> s[0] == SystemMessage(Some(RustTrim(options.systemPrompt.value)))
  {
    match options.systemPrompt
    case Some(sp) => [SystemMessage(Some(RustTrim(sp))), UserMessage(Some(RustTrim(options.prompt)), None, None)]
    case None => [UserMessage(Some(RustTrim(options.prompt)), None, None)]
  }

  /** `format!("{}-{}", action, idx)`. */
  function ToolCallId(action: string, idx: nat): string {
    action + "-" + NatToString(idx)
  }

  /** The `-` after the action name is the last one in a tool id: the index has no `-`. */
  lemma LastDash(action: string, idx: nat)
    ensures var s := ToolCallId(action, idx);
      s[|action|] == '-' && forall p :: |action| < p < |s| ==> s[p] != '-'
  {
    var s := ToolCallId(action, idx);
    forall p | |action| < p < |s| ensures s[p] != '-' {
      assert s[p] == NatToString(idx)[p - |action| - 1];
    }
  }

  /** Different (action, index) pairs never share a tool id, even when action names contain `-`. */
  lemma ToolCallIdInjective(a: string, i: nat, b: string, j: nat)
    requires ToolCallId(a, i) == ToolCallId(b, j)
    ensures a == b && i == j
  {
    var s := ToolCallId(a, i);
    LastDash(a, i);
    LastDash(b, j);
    assert |a| == |b|;
    assert a == s[..|a|] == b;
    assert NatToString(i) == s[|a| + 1..] == NatToString(j);
    NatToStringRoundTrip(i);
    NatToStringRoundTrip(j);
  }

  predicate IsAgentCall(m: Message) {
    m.Agent? && m.invocation.Some?
  }

  /** How many agent turns with an invocation `h` holds: the counter value after translating `h`. */
  function AgentCalls(h: seq<Message>): nat
    decreases |h|
  {
    if h == [] then 0
    else AgentCalls(h[..|h| - 1]) + (if IsAgentCall(h[|h| - 1]) then 1 else 0)
  }

  lemma AgentCallsStep(h: seq<Message>, i: nat)
    requires i < |h|
    ensures AgentCalls(h[..i + 1]) == AgentCalls(h[..i]) + (if IsAgentCall(h[i]) then 1 else 0)
  {
    assert h[..i + 1][..i] == h[..i];
  }

  lemma {:induction false} AgentCallsMonotone(h: seq<Message>, i: nat, j: nat)
    requires i <= j <= |h|
    ensures AgentCalls(h[..i]) <= AgentCalls(h[..j])
    decreases j - i
  {
    if i < j {
      AgentCallsStep(h, j - 1);
      AgentCallsMonotone(h, i, j - 1);
    }
  }

  /** The tool id a history entry gets when the counter stands at `idx`. */
  function EntryId(m: Message, idx: nat): Option<string> {
    if m.invocation.Some? then Some(ToolCallId(m.invocation.value.action, idx)) else None
  }

  /**
   * The Groq message for one history entry when the counter stands at `idx`:
   * an agent turn is an assistant message with its trimmed text; text
   * feedback is a tool message exactly when it carries an invocation; image
   * feedback is always a user message with image content; an entry carries a
   * tool id exactly when it has an invocation.
   */
  function TranslateEntry(m: Message, idx: nat): (r: GroqMessage)
    ensures r.AssistantMessage? <==> m.Agent?
    ensures m.Agent? ==> r.content == Some(RustTrim(m.text))
    ensures r.ToolMessage? <==> m.Feedback? && m.output.Text? && m.invocation.Some?
    ensures r.ToolMessage? ==> r.content == Some(m.output.text)
    ensures r.UserMessage? <==> m.Feedback? && (m.output.Image? || m.invocation.None?)
    ensures m.Feedback? && m.output.Image? ==>
      r == UserMessage(None, EntryId(m, idx), Some(ImageUrl(m.output.data, m.output.mimeType)))
    ensures m.Feedback? && m.output.Text? && m.invocation.None? ==> r == UserMessage(Some(m.output.text), None, None)
    ensures !r.SystemMessage?
    ensures r.toolCallId == EntryId(m, idx)
  {
    match m
    case Agent(text, _) => AssistantMessage(Some(RustTrim(text)), EntryId(m, idx))
    case Feedback(Text(text), _) =>
      if m.invocation.Some? then ToolMessage(Some(text), EntryId(m, idx))
      else UserMessage(Some(text), None, None)
    case Feedback(Image(data, mimeType), _) => UserMessage(None, EntryId(m, idx), Some(ImageUrl(data, mimeType)))
  }

  /** The body of the translation loop: one message, and the counter afterwards. */
  method TranslateStep(m: Message, callIdx: nat) returns (message: GroqMessage, next: nat)
    ensures message == TranslateEntry(m, callIdx)
    ensures next == callIdx + (if IsAgentCall(m) then 1 else 0)
  {
    next := callIdx;
    match m {
      case Agent(data, invocation) =>
        var toolCallId: Option<string> := None;
        if invocation.Some? {
          toolCallId := Some(ToolCallId(invocation.value.action, next));
          next := next + 1;
        }
        message := AssistantMessage(Some(RustTrim(data)), toolCallId);
      case Feedback(data, invocation) =>
        var toolCallId: Option<string> := None;
        if invocation.Some? {
          toolCallId := Some(ToolCallId(invocation.value.action, next));
        }
        if toolCallId.Some? {
          match data {
            case Text(text) => message := ToolMessage(Some(text), toolCallId);
            case Image(d, mimeType) => message := UserMessage(None, toolCallId, Some(ImageUrl(d, mimeType)));
          }
        } else {
          match data {
            case Text(text) => message := UserMessage(Some(text), toolCallId, None);
            case Image(d, mimeType) => message := UserMessage(None, toolCallId, Some(ImageUrl(d, mimeType)));
          }
        }
    }
  }

  /** The `chat_history` built by `chat`: the seed, then one message per history entry. */
  method TranslateHistory(options: ChatOptions) returns (history: seq<GroqMessage>)
    ensures history == Seed(options) + Translated(options.history, |options.history|)
  {
    history := AppendHistory(Seed(options), options.history);
  }

  /** The `for m in options.history` loop, pushing onto the seeded `chat_history`. */
  method AppendHistory(seed: seq<GroqMessage>, h: seq<Message>) returns (history: seq<GroqMessage>)
    ensures history == seed + Translated(h, |h|)
  {
    history := seed;
    var callIdx: nat := 0;
    var i := 0;
    while i < |h|
      invariant 0 <= i <= |h|
      invariant callIdx == AgentCalls(h[..i])
      invariant history == seed + Translated(h, i)
    {
      var message;
      message, callIdx := TranslateStep(h[i], callIdx);
      AgentCallsStep(h, i);
      history := history + [message];
      i := i + 1;
    }
  }

  /** The messages for the first `i` history entries. */
  ghost function Translated(h: seq<Message>, i: nat): (r: seq<GroqMessage>)
    requires i <= |h|
    ensures |r| == i
    ensures forall k :: 0 <= k < i ==> r[k] == TranslateEntry(h[k], AgentCalls(h[..k]))
    decreases i
  {
    if i == 0 then [] else Translated(h, i - 1) + [TranslateEntry(h[i - 1], AgentCalls(h[..i - 1]))]
  }

  /** Two agent turns with invocations at different positions get different tool ids. */
  lemma AssistantIdsDistinct(h: seq<Message>, k1: nat, k2: nat)
    requires k1 < k2 < |h| && IsAgentCall(h[k1]) && IsAgentCall(h[k2])
    ensures EntryId(h[k1], AgentCalls(h[..k1])) != EntryId(h[k2], AgentCalls(h[..k2]))
  {
    AgentCallsStep(h, k1);
    AgentCallsMonotone(h, k1 + 1, k2);
    if EntryId(h[k1], AgentCalls(h[..k1])) == EntryId(h[k2], AgentCalls(h[..k2])) {
      ToolCallIdInjective(h[k1].invocation.value.action, AgentCalls(h[..k1]),
                          h[k2].invocation.value.action, AgentCalls(h[..k2]));
    }
  }

  /**
   * Feedback reuses the counter without advancing it, so feedback that
   * directly follows an agent call is tagged with the next index, one past
   * the call's own id.
   */
  lemma FeedbackAfterCallIndex(h: seq<Message>, k: nat)
    requires k + 1 < |h| && IsAgentCall(h[k]) && h[k + 1].Feedback?
    ensures AgentCalls(h[..k + 1]) == AgentCalls(h[..k]) + 1
    ensures AgentCalls(h[..k + 2]) == AgentCalls(h[..k + 1])
  {
    AgentCallsStep(h, k);
    AgentCallsStep(h, k + 1);
  }

  // ---------------------------------------------------------------------------
  // Tools, probe and reply

  /** The tool list of the request: present, one per action, exactly when native tools are enabled. */
  method RequestTools(useNativeTools: bool, namespaces: seq<Namespace>) returns (tools: Option<seq<Tool>>)
    ensures tools.Some? <==> useNativeTools
    ensures tools.Some? ==> |tools.value| == |AllActions(namespaces)|
    ensures tools.Some? ==> forall i :: 0 <= i < |tools.value| ==> SchemaOf(AllActions(namespaces)[i], tools.value[i])
  {
    tools := None;
    if useNativeTools {
      var list := BuildTools(namespaces);
      tools := Some(list);
    }
  }

  /** `check_supported_features`: the system role always works; tools do iff the trial request succeeded. */
  function ProbeFeatures(requestSucceeded: bool): (f: SupportedFeatures)
    ensures f.systemPrompt
    ensures f.tools <==> requestSucceeded
  {
    SupportedFeatures(true, requestSucceeded)
  }

  datatype GroqChoice = GroqChoice(content: Option<string>, toolCalls: Option<seq<WireCall>>)

  /** What `client.create` returns. */
  datatype GroqReply =
    | ErrorResponse(code: int, message: string)   // a provider error the client could decode
    | OtherFailure(message: string)               // any other error
    | StreamReply
    | NonStreamReply(choices: seq<GroqChoice>, promptTokens: nat, completionTokens: nat)

  const StreamingUnsupported :=
    "Groq streaming is not supported yet, if this happens please open an issue on GitHub"

  function ChoiceCalls(c: GroqChoice): seq<WireCall> {
    if c.toolCalls.Some? then c.toolCalls.value else []
  }

  /**
   * The tail of `chat`. `shouldRetry` is the rate-limit check applied to the
   * error message; answering yes stands for sleeping and re-issuing the call.
   */
  method DecodeReply(reply: GroqReply, shouldRetry: string -> bool) returns (outcome: ChatOutcome)
    ensures outcome.RetryRequested? <==> reply.ErrorResponse? && reply.code == 429 && shouldRetry(reply.message)
    ensures reply.ErrorResponse? && !outcome.RetryRequested? ==> outcome == Failed(ProviderError(reply.message))
    ensures reply.OtherFailure? ==> outcome == Failed(ProviderError(reply.message))
    ensures reply.StreamReply? ==> outcome == Failed(Unsupported(StreamingUnsupported))
    ensures reply.NonStreamReply? && reply.choices == [] ==> outcome == Failed(Panic(NoChoicesPanic))
    ensures outcome.Done? <==>
      reply.NonStreamReply? && reply.choices != [] && DecodeCalls(ChoiceCalls(reply.choices[0])).Ok?
    ensures outcome.Done? ==> outcome.response == ChatResponse(
      reply.choices[0].content.GetOr(""),
      DecodeCalls(ChoiceCalls(reply.choices[0])).value,
      Some(Usage(reply.promptTokens, reply.completionTokens)))
    ensures reply.NonStreamReply? && reply.choices != [] && DecodeCalls(ChoiceCalls(reply.choices[0])).Err? ==>
      outcome == Failed(Unparseable(DecodeCalls(ChoiceCalls(reply.choices[0])).error))
  {
    match reply {
      case ErrorResponse(code, message) =>
        if code == 429 && shouldRetry(message) {
          return RetryRequested;
        }
        return Failed(ProviderError(message));
      case OtherFailure(message) =>
        return Failed(ProviderError(message));
      case StreamReply =>
        return Failed(Unsupported(StreamingUnsupported));
      case NonStreamReply(choices, promptTokens, completionTokens) =>
        if choices == [] {
          return Failed(Panic(NoChoicesPanic));
        }
        var choice := choices[0];
        var content := choice.content.GetOr("");
        var decoded := DecodeAllCalls(ChoiceCalls(choice));
        if decoded.Err? {
          return Failed(Unparseable(decoded.error));
        }
        return Done(ChatResponse(content, decoded.value, Some(Usage(promptTokens, completionTokens))));
    }
  }

  /** A successful Groq reply always reports usage and one invocation per tool call. */
  lemma DoneReplyShape(reply: GroqReply, response: ChatResponse)
    requires reply.NonStreamReply? && reply.choices != []
    requires DecodeCalls(ChoiceCalls(reply.choices[0])).Ok?
    requires response == ChatResponse(
      reply.choices[0].content.GetOr(""),
      DecodeCalls(ChoiceCalls(reply.choices[0])).value,
      Some(Usage(reply.promptTokens, reply.completionTokens)))
    ensures response.usage.Some?
    ensures |response.invocations| == |ChoiceCalls(reply.choices[0])|
    ensures reply.choices[0].toolCalls.None? ==> response.invocations == []
  {
  }
}
