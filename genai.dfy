/** The parts of the Google GenAI SDK the adapter touches, as plain values.
    The SDK itself is not part of this model: its calls appear only through
    their outcomes (`SdkResult`), which the caller of a modelled operation
    supplies. */
module Genai {

  import opened Results
  import opened JsonDoc

  /** `types.Part`: built with `from_text`, `from_function_call` or `from_function_response`. */
  datatype Part =
    | TextPart(text: string)
    | FunctionCallPart(name: string, args: map<string, Json>)
    | FunctionResponsePart(name: string, response: map<string, Json>)

  /** `types.Content`; `UserContent` has role "user" and `ModelContent` role "model". */
  datatype Content = Content(role: string, parts: seq<Part>)

  /** `types.FunctionDeclaration(**description)`. */
  datatype FunctionDeclaration = FunctionDeclaration(description: map<string, Json>)

  /** `types.Tool`: the Google-search tool, or one tool bundling function declarations. */
  datatype Tool = GoogleSearchTool | FunctionDeclarationsTool(declarations: seq<FunctionDeclaration>)

  /** A value in the generation-config dictionary sent to the backend. */
  datatype Setting = Value(value: Json) | ToolList(tools: seq<Tool>)

  /** `types.FunctionCall`: a function call the model asked for. */
  datatype SdkFunctionCall = SdkFunctionCall(name: string, arguments: map<string, Json>)

  datatype Candidate = Candidate(content: Option<Content>)

  /** The fields of `GenerateContentResponse` the adapter reads, and its `str()`. */
  datatype GenerateContentResponse = GenerateContentResponse(
    candidates: Option<seq<Candidate>>,
    functionCalls: Option<seq<SdkFunctionCall>>,
    text: Option<string>,
    repr: string)

  /** The arguments of one `models.generate_content` call. */
  datatype GenerateContentCall = GenerateContentCall(model: string, contents: seq<Content>, config: map<string, Setting>)

  /** What an SDK call can raise: `errors.APIError` or any other exception. */
  datatype SdkError =
    | ApiError(code: int, message: Option<string>)
    | OtherException(className: string, text: string)

  datatype SdkResult<+T> = Returned(value: T) | Threw(error: SdkError)
}
