/**
 * The vocabulary shared by every generator adapter: what a chat call receives
 * (ChatOptions with its Message history) and what it gives back (a
 * ChatResponse of text, decoded Invocations and optional token usage), and the
 * capability-probe result.
 */
module Generator {
  import opened Wrappers
  import opened Namespaces

  /** A decoded request to run one named action. */
  datatype Invocation = Invocation(
    action: string,
    attributes: Option<map<string, string>>,
    payload: Option<string>)

  /** One conversation turn: the model's own text, or an action result fed back to it. */
  datatype Message =
    | Agent(text: string, invocation: Option<Invocation>)
    | Feedback(output: ActionOutput, invocation: Option<Invocation>)

  datatype ChatOptions = ChatOptions(
    systemPrompt: Option<string>,
    prompt: string,
    history: seq<Message>)

  datatype Usage = Usage(inputTokens: nat, outputTokens: nat)

  datatype ChatResponse = ChatResponse(
    content: string,
    invocations: seq<Invocation>,
    usage: Option<Usage>)

  datatype SupportedFeatures = SupportedFeatures(systemPrompt: bool, tools: bool)

  /** Why a chat call failed. */
  datatype ChatError =
    | ProviderError(message: string)   // the provider call failed and is not retried
    | Unsupported(message: string)     // e.g. a streaming reply
    | Unparseable(message: string)     // tool-call arguments that are not a JSON object
    | Panic(message: string)           // an `unwrap` on a missing value

  /**
   * What one chat attempt ends in. `RetryRequested` stands for the recursive
   * call the adapters make after the rate-limit check has slept.
   */
  datatype ChatOutcome = Done(response: ChatResponse) | Failed(error: ChatError) | RetryRequested

  const NoChoicesPanic := "called `Option::unwrap()` on a `None` value"
}
