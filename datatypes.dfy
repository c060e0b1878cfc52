/** Configuration, message, request and response records of the LLM layer.
    All of them are frozen dataclasses in the source, so they are values here. */
module Datatypes {

  import opened Results
  import opened JsonDoc
  import opened Genai

  datatype ModelConfig = ModelConfig(name: string, generation: Option<map<string, Json>>)

  datatype ProviderConfig = ProviderConfig(name: string, apiKey: string)

  datatype ProfileConfig = ProfileConfig(provider: ProviderConfig, model: ModelConfig)

  datatype ProfileSelection = ProfileSelection(default: ProfileConfig, fallback: ProfileConfig)

  /** The two semaphores are represented by their capacities. */
  datatype ConcurrencyConfig = ConcurrencyConfig(maxConcurrency: int, concurrent: nat, inflightRequests: nat)

  datatype RetryConfig = RetryConfig(maxRetries: int, retryDelay: int, retryOn: seq<string>)

  datatype LLMConfig = LLMConfig(
    profiles: ProfileSelection,
    concurrency: ConcurrencyConfig,
    retry: RetryConfig,
    tools: Option<map<string, Json>>)

  /** The status patterns retried when none are given. */
  const DefaultRetryOn: seq<string> := ["5..", "408", "429"]

  /** `LLMRetryConfig(max_retries, retry_delay)` with the default `retry_on`. */
  function NewRetryConfig(maxRetries: int, retryDelay: int, retryOn: seq<string> := DefaultRetryOn): (c: RetryConfig)
    ensures c.maxRetries == maxRetries && c.retryDelay == retryDelay && c.retryOn == retryOn
  {
    RetryConfig(maxRetries, retryDelay, retryOn)
  }

  datatype Role = UserRole | AssistantRole | FunctionRequestRole | FunctionResponseRole {
    function Value(): string {
      match this
      case UserRole => "user"
      case AssistantRole => "assistant"
      case FunctionRequestRole => "function_request"
      case FunctionResponseRole => "function_response"
    }
  }

  /** A provider's own representation of a message, tagged with the provider's name. */
  datatype OriginalContent = OriginalContent(provider: string, content: Content)

  /** The fields of an `LLMFunctionCall`; a function response embeds one. */
  datatype FunctionCallData = FunctionCallData(name: string, arguments: map<string, Json>, originalContent: OriginalContent)

  /** The message hierarchy. The three `Bare…` variants are direct instances of
      the abstract base classes, which Python does not forbid (they declare no
      abstract methods). */
  datatype Message =
    | UserMessage(content: string)
    | AssistantMessage(content: string, originalContent: OriginalContent)
    | FunctionCall(call: FunctionCallData)
    | FunctionResponse(call: FunctionCallData, response: map<string, Json>)
    | BareMessage
    | BareInternalMessage
    | BareProviderMessage(originalContent: OriginalContent)
  {
    /** An instance of `LLMInternalMessage`: created by the application. */
    predicate IsInternal() {
      UserMessage? || FunctionResponse? || BareInternalMessage?
    }

    /** An instance of `LLMProviderMessage`: created from a provider's answer. */
    predicate IsProvider() {
      AssistantMessage? || FunctionCall? || BareProviderMessage?
    }

    /** The `original_content` field, which exactly the provider messages have. */
    function Original(): (r: Option<OriginalContent>)
      ensures r.Some? <==> IsProvider()
      ensures IsInternal() ==> r.None?
    {
      match this
      case AssistantMessage(_, oc) => Some(oc)
      case FunctionCall(call) => Some(call.originalContent)
      case BareProviderMessage(oc) => Some(oc)
      case _ => None
    }

    function ClassName(): string {
      match this
      case UserMessage(_) => "LLMUserMessage"
      case AssistantMessage(_, _) => "LLMAssistantMessage"
      case FunctionCall(_) => "LLMFunctionCall"
      case FunctionResponse(_, _) => "LLMFunctionResponse"
      case BareMessage => "LLMMessage"
      case BareInternalMessage => "LLMInternalMessage"
      case BareProviderMessage(_) => "LLMProviderMessage"
    }
  }

  type InternalMessage = m: Message | m.IsInternal() witness UserMessage("")

  type ProviderMessage = m: Message | m.IsProvider()
    witness AssistantMessage("", OriginalContent("", Content("", [])))

  /** `LLMFunctionCall(name, original_content, arguments={})`. */
  function NewFunctionCall(name: string, originalContent: OriginalContent, arguments: map<string, Json> := map[]): (m: ProviderMessage)
    ensures m.FunctionCall? && m.call == FunctionCallData(name, arguments, originalContent)
  {
    FunctionCall(FunctionCallData(name, arguments, originalContent))
  }

  /** `LLMFunctionResponse(call, response={})`. */
  function NewFunctionResponse(call: FunctionCallData, response: map<string, Json> := map[]): (m: InternalMessage)
    ensures m.FunctionResponse? && m.call == call && m.response == response
  {
    FunctionResponse(call, response)
  }

  /** Request identifiers (a UUID in the source). */
  type RequestId = string

  /** `allowed_tools` is a Python set; `allowedTools` lists it in its iteration order. */
  datatype Request = Request(
    prompt: InternalMessage,
    systemPrompt: Option<string>,
    history: seq<Message>,
    allowedTools: Option<seq<string>>,
    structuredOutput: Option<Json>,
    id: RequestId)

  /** `LLMRequest(prompt, ...)` with the defaults; the fresh UUID is passed in. */
  function NewRequest(prompt: InternalMessage, id: RequestId, systemPrompt: Option<string> := None,
                      history: seq<Message> := [], allowedTools: Option<seq<string>> := None,
                      structuredOutput: Option<Json> := None): (r: Request)
    ensures r.prompt == prompt && r.id == id && r.systemPrompt == systemPrompt && r.history == history
    ensures r.allowedTools == allowedTools && r.structuredOutput == structuredOutput
  {
    Request(prompt, systemPrompt, history, allowedTools, structuredOutput, id)
  }

  datatype Response = Response(response: ProviderMessage, id: RequestId)
}
