/** The provider-facing records of crates/llm-gateway that a chat turn carries around. */
module Llm {
  import opened Prelude

  datatype Mode = Placeholder | Provider

  datatype FinishReason = Stop | ToolCalls | Length | ContentFilter | Error | Other(wire: string)

  datatype FailureKind =
    | RequestFailed | RequestTimeout | HttpStatus | ResponseBodyReadFailed
    | InvalidJson | InvalidResponse | FinishReasonError

  datatype ProviderFailure = ProviderFailure(kind: FailureKind, message: string)

  datatype TokenUsage = TokenUsage(input: nat, output: nat, total: nat)

  datatype Runtime = Runtime(
    mode: Mode,
    provider: string,
    model: string,
    lane: Option<string>,
    requestId: Option<string>,
    finishReason: Option<FinishReason>,
    failure: Option<ProviderFailure>,
    latencyMs: Option<nat>,
    usage: Option<TokenUsage>,
    promptKey: Option<string>,
    promptVersion: Option<string>,
    toolTraceCount: nat)

  datatype CallStatus = Requested | Completed | Failed

  datatype ToolCall = ToolCall(
    callId: Option<string>,
    toolName: string,
    status: CallStatus,
    arguments: Option<Json>,
    result: Option<Json>)

  /** What one successful generation yields and every recovery copy must preserve. */
  datatype Answer = Answer(content: string, runtime: Runtime, calls: seq<ToolCall>)

  /** The guard of `chat_runtime_error_message`. */
  predicate Errored(runtime: Runtime) {
    runtime.finishReason == Some(Error)
  }

  /** The check every finder makes before it trusts a copy. */
  predicate Consistent(a: Answer) {
    a.runtime.toolTraceCount == |a.calls|
  }

  function Wire(reason: FinishReason): string {
    match reason
    case Stop => "stop"
    case ToolCalls => "tool_calls"
    case Length => "length"
    case ContentFilter => "content_filter"
    case Error => "error"
    case Other(wire) => wire
  }

  predicate ReachedProvider(kind: FailureKind) {
    kind != RequestFailed && kind != RequestTimeout
  }
}
