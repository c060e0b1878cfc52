/** The Google adapter: turns a request into one `generate_content` call and
    the SDK's answer (or exception) into a response or a classified error. */
module GoogleProvider {

  import opened Results
  import opened JsonDoc
  import opened Errors
  import opened Genai
  import opened Datatypes

  const Google: string := "google"

  // ---------------------------------------------------------------------------
  // Error classification

  /** An SDK `APIError` becomes a client error for 4xx codes (section 15.5 of
      RFC 9110), a server error for 5xx codes (section 15.6), and a plain
      `LLMError` otherwise; code and message are kept. */
  function ClassifyApiError(code: int, message: string): (e: LLMError)
    ensures e.statusCode == code && e.response == message
    ensures e.cls == LLMClientErrorClass <==> 400 <= code < 500
    ensures e.cls == LLMServerErrorClass <==> 500 <= code < 600
  {
    if 400 <= code < 500 then NewClientError(code, message)
    else if 500 <= code < 600 then NewServerError(code, message)
    else NewLLMError(code, message)
  }

  /** `e.message if e.message else ""`. */
  function MessageOrEmpty(m: Option<string>): string {
    if m.Some? then m.value else ""
  }

  /** What `generate` and `_validate` raise when the SDK call raises: the
      classified `APIError`, or 601 carrying the text of any other exception. */
  function CallFailure(e: SdkError): (r: LLMError)
    ensures e.ApiError? ==> r.statusCode == e.code && r.response == MessageOrEmpty(e.message)
    ensures e.ApiError? ==> (IsInstance(r, LLMClientErrorClass) <==> 400 <= e.code < 500)
    ensures e.ApiError? ==> (IsInstance(r, LLMServerErrorClass) <==> 500 <= e.code < 600)
    ensures e.OtherException? ==> r == NewLLMError(UnexpectedError, e.text)
  {
    match e
    case ApiError(code, message) => ClassifyApiError(code, MessageOrEmpty(message))
    case OtherException(_, text) => NewLLMError(UnexpectedError, text)
  }

  /** Every code the error classes document lands in its class, and the
      internal codes stay plain errors. */
  lemma DocumentedCodesClassify(message: string)
    ensures forall i :: 0 <= i < |DocumentedClientCodes| ==>
      ClassifyApiError(DocumentedClientCodes[i], message).cls == LLMClientErrorClass
    ensures forall i :: 0 <= i < |DocumentedServerCodes| ==>
      ClassifyApiError(DocumentedServerCodes[i], message).cls == LLMServerErrorClass
    ensures forall code :: UnsupportedProvider <= code <= TransformFailed ==>
      ClassifyApiError(code, message).cls == LLMErrorClass
  {
  }

  /** `_validate`: the outcome of listing the models, as an error or none. */
  function ValidationError(listing: Option<SdkError>): (r: Option<LLMError>)
    ensures r.None? <==> listing.None?
    ensures r.Some? ==> r.value == CallFailure(listing.value)
  {
    match listing
    case None => None
    case Some(e) => Some(CallFailure(e))
  }

  // ---------------------------------------------------------------------------
  // Tool resolution

  /** The allowed tool names, in iteration order; None and an empty set give none. */
  function AllowedNames(request: Request): seq<string> {
    if request.allowedTools.Some? then request.allowedTools.value else []
  }

  predicate Known(name: string, custom: map<string, FunctionDeclaration>, provider: map<string, Tool>) {
    name in custom || name in provider
  }

  /** The first name in neither table. */
  function FirstUnknownTool(names: seq<string>, custom: map<string, FunctionDeclaration>, provider: map<string, Tool>): (r: Option<string>)
    ensures r.None? <==> forall i :: 0 <= i < |names| ==> Known(names[i], custom, provider)
    ensures r.Some? ==> exists i :: (0 <= i < |names| && names[i] == r.value && !Known(names[i], custom, provider)
      && forall j :: 0 <= j < i ==> Known(names[j], custom, provider))
  {
    if names == [] then None
    else if !Known(names[0], custom, provider) then Some(names[0])
    else
      var rest := FirstUnknownTool(names[1..], custom, provider);
      assert rest.Some? ==> exists i :: (0 < i < |names| && names[i] == rest.value && !Known(names[i], custom, provider)
        && forall j :: 0 <= j < i ==> Known(names[j], custom, provider)) by {
        if rest.Some? {
          var k :| 0 <= k < |names[1..]| && names[1..][k] == rest.value && !Known(names[1..][k], custom, provider)
            && forall j :: 0 <= j < k ==> Known(names[1..][j], custom, provider);
          assert forall j :: 0 <= j < k + 1 ==> Known(names[j], custom, provider) by {
            forall j | 0 <= j < k + 1 ensures Known(names[j], custom, provider) {
              if j > 0 { assert names[j] == names[1..][j - 1]; }
            }
          }
        }
      }
      rest
  }

  /** The declarations of the names found in the custom table, in order. */
  function CustomDeclarations(names: seq<string>, custom: map<string, FunctionDeclaration>): seq<FunctionDeclaration> {
    if names == [] then []
    else
      var last := names[|names| - 1];
      CustomDeclarations(names[..|names| - 1], custom) + (if last in custom then [custom[last]] else [])
  }

  /** The provider tools of the names not in the custom table, in order. */
  function ProviderToolsOf(names: seq<string>, custom: map<string, FunctionDeclaration>, provider: map<string, Tool>): seq<Tool> {
    if names == [] then []
    else
      var last := names[|names| - 1];
      ProviderToolsOf(names[..|names| - 1], custom, provider)
        + (if last !in custom && last in provider then [provider[last]] else [])
  }

  /** The tool list: provider tools first, then one tool bundling all custom declarations. */
  function ResolvedTools(names: seq<string>, custom: map<string, FunctionDeclaration>, provider: map<string, Tool>): seq<Tool> {
    var decls := CustomDeclarations(names, custom);
    ProviderToolsOf(names, custom, provider) + (if decls != [] then [FunctionDeclarationsTool(decls)] else [])
  }

  /** The first unknown name is the one at the first index whose name is unknown. */
  lemma {:induction false} FirstUnknownAt(names: seq<string>, custom: map<string, FunctionDeclaration>, provider: map<string, Tool>, i: nat)
    requires i < |names| && !Known(names[i], custom, provider)
    requires forall j :: 0 <= j < i ==> Known(names[j], custom, provider)
    ensures FirstUnknownTool(names, custom, provider) == Some(names[i])
  {
    var r := FirstUnknownTool(names, custom, provider);
    var k :| 0 <= k < |names| && names[k] == r.value && !Known(names[k], custom, provider)
      && forall j :: 0 <= j < k ==> Known(names[j], custom, provider);
    assert k == i;
  }

  /** Every allowed name resolves to exactly one declaration or one provider tool. */
  lemma {:induction false} ResolvedCount(names: seq<string>, custom: map<string, FunctionDeclaration>, provider: map<string, Tool>)
    requires FirstUnknownTool(names, custom, provider).None?
    ensures |CustomDeclarations(names, custom)| + |ProviderToolsOf(names, custom, provider)| == |names|
  {
    if names != [] {
      ResolvedCount(names[..|names| - 1], custom, provider);
    }
  }

  /** The custom table takes precedence: a name in both tables never yields a provider tool. */
  lemma {:induction false} CustomShadowsProvider(names: seq<string>, custom: map<string, FunctionDeclaration>, provider: map<string, Tool>)
    requires forall i :: 0 <= i < |names| ==> names[i] in custom
    ensures ProviderToolsOf(names, custom, provider) == []
    ensures |CustomDeclarations(names, custom)| == |names|
  {
    if names != [] {
      CustomShadowsProvider(names[..|names| - 1], custom, provider);
    }
  }

  /** Without allowed names no tool is sent at all. */
  lemma NoNamesNoTools(custom: map<string, FunctionDeclaration>, provider: map<string, Tool>)
    ensures ResolvedTools([], custom, provider) == []
  {
  }

  /** The custom declarations, when there are any, travel as the last tool. */
  lemma {:induction false} DeclarationsToolIsLast(names: seq<string>, custom: map<string, FunctionDeclaration>, provider: map<string, Tool>)
    requires CustomDeclarations(names, custom) != []
    ensures var tools := ResolvedTools(names, custom, provider);
      |tools| > 0 && tools[|tools| - 1] == FunctionDeclarationsTool(CustomDeclarations(names, custom))
  {
  }

  // ---------------------------------------------------------------------------
  // Generation settings

  const SystemInstructionKey: string := "system_instruction"
  const MimeTypeKey: string := "response_mime_type"
  const SchemaKey: string := "response_json_schema"
  const ToolsKey: string := "tools"

  /** The configured generation entries, copied. */
  function BaseSettings(config: ModelConfig): map<string, Setting> {
    if config.generation.Some? then
      map k | k in config.generation.value :: Value(config.generation.value[k])
    else map[]
  }

  /** The dictionary sent as `config=`: the model's generation settings, overridden
      by the request's system prompt, structured-output schema and tools. */
  function Settings(config: ModelConfig, request: Request, tools: seq<Tool>): (s: map<string, Setting>)
    ensures forall k :: k in s <==>
      (k in BaseSettings(config)
       || (k == SystemInstructionKey && request.systemPrompt.Some?)
       || ((k == MimeTypeKey || k == SchemaKey) && request.structuredOutput.Some?)
       || (k == ToolsKey && tools != []))
    ensures forall k ::
      (&& k in BaseSettings(config)
       && !(k == SystemInstructionKey && request.systemPrompt.Some?)
       && !((k == MimeTypeKey || k == SchemaKey) && request.structuredOutput.Some?)
       && !(k == ToolsKey && tools != [])) ==>
      s[k] == BaseSettings(config)[k]
    ensures request.systemPrompt.Some? ==> s[SystemInstructionKey] == Value(JStr(request.systemPrompt.value))
    ensures request.structuredOutput.Some? ==>
      s[MimeTypeKey] == Value(JStr("application/json")) && s[SchemaKey] == Value(request.structuredOutput.value)
    ensures tools != [] ==> s[ToolsKey] == ToolList(tools)
  {
    var base := BaseSettings(config);
    var withSystem := if request.systemPrompt.Some? then base[SystemInstructionKey := Value(JStr(request.systemPrompt.value))] else base;
    var withSchema :=
      if request.structuredOutput.Some? then
        withSystem[MimeTypeKey := Value(JStr("application/json"))][SchemaKey := Value(request.structuredOutput.value)]
      else withSystem;
    if tools != [] then withSchema[ToolsKey := ToolList(tools)] else withSchema
  }

  // ---------------------------------------------------------------------------
  // Content transformation

  const TypeErrorPrefix: string := "Unsupported message type for Google transform: "

  /** `_transform_content`: a provider message tagged "google" is sent back as
      the content Google returned; otherwise each message kind is translated,
      and the bare base classes raise `TypeError`. */
  function TransformContent(m: Message): (r: Result<Content, Raised>)
    ensures m.IsProvider() && m.Original().value.provider == Google ==> r == Ok(m.Original().value.content)
    ensures r.Err? <==> (m.BareMessage? || m.BareInternalMessage? || (m.BareProviderMessage? && m.originalContent.provider != Google))
    ensures r.Err? ==> r.error == Foreign("TypeError", TypeErrorPrefix + m.ClassName())
    ensures r.Ok? && !(m.IsProvider() && m.Original().value.provider == Google) ==>
      r.value.role == (if m.IsInternal() then "user" else "model")
    ensures m.UserMessage? ==> r == Ok(Content("user", [TextPart(m.content)]))
    ensures m.AssistantMessage? && m.originalContent.provider != Google ==> r == Ok(Content("model", [TextPart(m.content)]))
    ensures m.FunctionCall? && m.call.originalContent.provider != Google ==>
      r == Ok(Content("model", [FunctionCallPart(m.call.name, m.call.arguments)]))
    ensures m.FunctionResponse? ==> r == Ok(Content("user", [FunctionResponsePart(m.call.name, m.response)]))
  {
    if m.IsProvider() && m.Original().value.provider == Google then Ok(m.Original().value.content)
    else match m
      case UserMessage(c) => Ok(Content("user", [TextPart(c)]))
      case AssistantMessage(c, _) => Ok(Content("model", [TextPart(c)]))
      case FunctionCall(call) => Ok(Content("model", [FunctionCallPart(call.name, call.arguments)]))
      case FunctionResponse(call, response) => Ok(Content("user", [FunctionResponsePart(call.name, response)]))
      case _ => Err(Foreign("TypeError", TypeErrorPrefix + m.ClassName()))
  }

  /** The history translated message by message; the first failure is raised. */
  function TransformAll(ms: seq<Message>): (r: Result<seq<Content>, Raised>)
    ensures r.Ok? <==> forall i :: 0 <= i < |ms| ==> TransformContent(ms[i]).Ok?
    ensures r.Ok? ==> |r.value| == |ms| && forall i :: 0 <= i < |ms| ==> r.value[i] == TransformContent(ms[i]).value
    ensures r.Err? ==> exists i :: (0 <= i < |ms| && TransformContent(ms[i]).Err? && r.error == TransformContent(ms[i]).error
      && forall j :: 0 <= j < i ==> TransformContent(ms[j]).Ok?)
  {
    if ms == [] then Ok([])
    else match TransformContent(ms[0])
      case Err(e) => Err(e)
      case Ok(c) =>
        match TransformAll(ms[1..])
        case Err(e) => Err(e)
        case Ok(cs) => Ok([c] + cs)
  }

  /** The `contents=` list: the prompt first, then the history in order. */
  function RequestContents(request: Request): (r: Result<seq<Content>, Raised>)
    ensures r.Ok? ==> |r.value| == 1 + |request.history|
    ensures r.Ok? ==> (TransformContent(request.prompt).Ok? && r.value[0] == TransformContent(request.prompt).value)
    ensures r.Ok? ==> forall i :: 0 <= i < |request.history| ==>
      TransformContent(request.history[i]).Ok? && r.value[i + 1] == TransformContent(request.history[i]).value
    ensures r.Err? <==> TransformContent(request.prompt).Err? || TransformAll(request.history).Err?
    ensures TransformContent(request.prompt).Err? ==> r == Err(TransformContent(request.prompt).error)
    ensures TransformContent(request.prompt).Ok? && TransformAll(request.history).Err? ==>
      r == Err(TransformAll(request.history).error)
  {
    match TransformContent(request.prompt)
    case Err(e) => Err(e)
    case Ok(c) =>
      match TransformAll(request.history)
      case Err(e) => Err(e)
      case Ok(cs) => Ok([c] + cs)
  }

  // ---------------------------------------------------------------------------
  // Response decision

  const NoContentText: string := "No content returned from Google API"
  const MultipleCallsText: string := "Multiple function calls returned from Google API"
  const NoTextPrefix: string := "response didn't contain any content.\nResponse: "

  /** How a successful `generate_content` answer becomes the request's
      response: no content gives 602, several function calls 603, one
      function call an `LLMFunctionCall`, otherwise non-empty text an
      `LLMAssistantMessage` and empty text 602. An empty or missing candidate
      list raises out of the adapter unclassified. */
  function DecideResponse(resp: GenerateContentResponse, id: RequestId): (r: Result<Response, Raised>)
    ensures resp.candidates.None? ==> r.Err? && r.error.Foreign?
    ensures resp.candidates.Some? && resp.candidates.value == [] ==> r.Err? && r.error.Foreign?
    ensures r.Err? && r.error.Llm? ==>
      (r.error.error.cls == LLMErrorClass && r.error.error.statusCode in {ConversionFailed, FaultyResponse})
    ensures r.Ok? ==>
      (r.value.id == id && resp.candidates.Some? && |resp.candidates.value| > 0
       && resp.candidates.value[0].content.Some?
       && r.value.response.Original() == Some(OriginalContent(Google, resp.candidates.value[0].content.value)))
    ensures resp.candidates.Some? && |resp.candidates.value| > 0 ==>
      (r == Err(Llm(NewLLMError(ConversionFailed, NoContentText))) <==> resp.candidates.value[0].content.None?)
    ensures r == Err(Llm(NewLLMError(FaultyResponse, MultipleCallsText))) <==>
      resp.candidates.Some? && |resp.candidates.value| > 0 && resp.candidates.value[0].content.Some?
      && resp.functionCalls.Some? && |resp.functionCalls.value| > 1
    ensures r.Ok? && r.value.response.FunctionCall? <==>
      resp.candidates.Some? && |resp.candidates.value| > 0 && resp.candidates.value[0].content.Some?
      && resp.functionCalls.Some? && |resp.functionCalls.value| == 1
    ensures r.Ok? && r.value.response.FunctionCall? ==>
      r.value.response.call.name == resp.functionCalls.value[0].name
      && r.value.response.call.arguments == resp.functionCalls.value[0].arguments
    ensures r.Ok? && r.value.response.AssistantMessage? <==>
      resp.candidates.Some? && |resp.candidates.value| > 0 && resp.candidates.value[0].content.Some?
      && (resp.functionCalls.None? || resp.functionCalls.value == [])
      && resp.text.Some? && resp.text.value != ""
    ensures r.Ok? && r.value.response.AssistantMessage? ==> r.value.response.content == resp.text.value
    ensures (&& resp.candidates.Some? && |resp.candidates.value| > 0 && resp.candidates.value[0].content.Some?
             && (resp.functionCalls.None? || resp.functionCalls.value == [])
             && !(resp.text.Some? && resp.text.value != "")) ==>
      r == Err(Llm(NewLLMError(ConversionFailed, NoTextPrefix + resp.repr)))
    ensures r.Ok? ==> r.value.response.FunctionCall? || r.value.response.AssistantMessage?
  {
    match resp.candidates
    case None => Err(Foreign("TypeError", "'NoneType' object is not subscriptable"))
    case Some(candidates) =>
      if candidates == [] then Err(Foreign("IndexError", "list index out of range"))
      else if candidates[0].content.None? then Err(Llm(NewLLMError(ConversionFailed, NoContentText)))
      else
        var original := OriginalContent(Google, candidates[0].content.value);
        var calls := if resp.functionCalls.Some? then resp.functionCalls.value else [];
        if |calls| > 1 then Err(Llm(NewLLMError(FaultyResponse, MultipleCallsText)))
        else if |calls| == 1 then
          Ok(Response(NewFunctionCall(calls[0].name, original, calls[0].arguments), id))
        else if resp.text.Some? && resp.text.value != "" then
          Ok(Response(AssistantMessage(resp.text.value, original), id))
        else Err(Llm(NewLLMError(ConversionFailed, NoTextPrefix + resp.repr)))
  }

  /** A response put back into the history is sent to Google exactly as
      Google returned it. */
  lemma {:induction false} ReplayIsVerbatim(resp: GenerateContentResponse, id: RequestId)
    requires DecideResponse(resp, id).Ok?
    ensures TransformContent(DecideResponse(resp, id).value.response) == Ok(resp.candidates.value[0].content.value)
  {
  }

  // ---------------------------------------------------------------------------
  // The client

  /** A custom tool given as (name, declaration description), in dict order. */
  type CustomToolEntry = (string, map<string, Json>)

  /** The provider-side tools every client offers. */
  const ProviderTools: map<string, Tool> := map["search" := GoogleSearchTool]

  /** `table` holds exactly the given tool names, each with a declaration
      built from the last description given for it. */
  ghost predicate IsCustomTable(table: map<string, FunctionDeclaration>, entries: seq<CustomToolEntry>) {
    && (forall name :: name in table <==> exists i :: 0 <= i < |entries| && entries[i].0 == name)
    && (forall i :: 0 <= i < |entries| && (forall j :: i < j < |entries| ==> entries[j].0 != entries[i].0) ==>
          entries[i].0 in table && table[entries[i].0] == FunctionDeclaration(entries[i].1))
  }

  /** The tool entries `__init__` iterates over: none when no tools are given. */
  function GivenTools(customToolsArg: Option<seq<CustomToolEntry>>): seq<CustomToolEntry> {
    if customToolsArg.Some? then customToolsArg.value else []
  }

  /** The custom-function table `__init__` fills: one declaration per name,
      built from the name's (last) description. */
  method BuildCustomTools(entries: seq<CustomToolEntry>) returns (table: map<string, FunctionDeclaration>)
    ensures IsCustomTable(table, entries)
  {
    table := map[];
    var n := 0;
    while n < |entries|
      invariant 0 <= n <= |entries|
      invariant forall name :: name in table <==> exists i :: 0 <= i < n && entries[i].0 == name
      invariant forall i :: 0 <= i < n && (forall j :: i < j < n ==> entries[j].0 != entries[i].0) ==>
        entries[i].0 in table && table[entries[i].0] == FunctionDeclaration(entries[i].1)
    {
      table := table[entries[n].0 := FunctionDeclaration(entries[n].1)];
      n := n + 1;
    }
  }

  class GoogleClient {
    /** `_closed`. */
    var closed: bool
    /** How many times the SDK client's `aclose` has been awaited. */
    ghost var acloseCalls: nat
    /** `_custom_tools` and `_provider_tools`, fixed at construction. */
    const customTools: map<string, FunctionDeclaration>
    const providerTools: map<string, Tool>

    /** The part of `__init__` after the SDK client was built. */
    constructor (custom: map<string, FunctionDeclaration>)
      ensures !closed && acloseCalls == 0
      ensures customTools == custom && providerTools == ProviderTools
    {
      closed := false;
      acloseCalls := 0;
      customTools := custom;
      providerTools := ProviderTools;
    }

    /** `GoogleClient(config, custom_tools)`: `sdkInit` is what building the SDK
        client raised, if anything. An `APIError` is classified; any other
        exception escapes as it is. */
    static method Init(customToolsArg: Option<seq<CustomToolEntry>>, sdkInit: Option<SdkError>)
      returns (r: Result<GoogleClient, Raised>)
      ensures sdkInit.Some? && sdkInit.value.ApiError? ==>
        r == Err(Llm(ClassifyApiError(sdkInit.value.code, MessageOrEmpty(sdkInit.value.message))))
      ensures sdkInit.Some? && sdkInit.value.OtherException? ==>
        r == Err(Foreign(sdkInit.value.className, sdkInit.value.text))
      ensures sdkInit.None? ==>
        (r.Ok? && fresh(r.value) && !r.value.closed && r.value.acloseCalls == 0
         && r.value.providerTools == ProviderTools
         && IsCustomTable(r.value.customTools, GivenTools(customToolsArg)))
    {
      match sdkInit
      case Some(ApiError(code, message)) =>
        r := Err(Llm(ClassifyApiError(code, MessageOrEmpty(message))));
      case Some(OtherException(name, text)) =>
        r := Err(Foreign(name, text));
      case None =>
        var table := BuildCustomTools(GivenTools(customToolsArg));
        var client := new GoogleClient(table);
        r := Ok(client);
    }

    /** `GoogleClient.create`: build the client, then validate the credentials. */
    static method Create(customToolsArg: Option<seq<CustomToolEntry>>, sdkInit: Option<SdkError>, listing: Option<SdkError>)
      returns (r: Result<GoogleClient, Raised>)
      ensures sdkInit.Some? && sdkInit.value.ApiError? ==>
        r == Err(Llm(ClassifyApiError(sdkInit.value.code, MessageOrEmpty(sdkInit.value.message))))
      ensures sdkInit.Some? && sdkInit.value.OtherException? ==>
        r == Err(Foreign(sdkInit.value.className, sdkInit.value.text))
      ensures sdkInit.None? && listing.Some? ==> r == Err(Llm(CallFailure(listing.value)))
      ensures sdkInit.None? && listing.None? ==>
        (r.Ok? && fresh(r.value) && !r.value.closed && r.value.acloseCalls == 0
         && r.value.providerTools == ProviderTools
         && IsCustomTable(r.value.customTools, GivenTools(customToolsArg)))
    {
      r := Init(customToolsArg, sdkInit);
      if r.Ok? {
        var err := ValidationError(listing);
        if err.Some? {
          r := Err(Llm(err.value));
        }
      }
    }

    /** `close`: the SDK client is closed once; later calls do nothing. If
        `aclose` raises (`acloseFailure`), the client stays open and the
        exception escapes. */
    method Close(acloseFailure: Option<SdkError>) returns (err: Option<SdkError>)
      modifies this
      ensures old(closed) ==> closed && acloseCalls == old(acloseCalls) && err.None?
      ensures !old(closed) ==> acloseCalls == old(acloseCalls) + 1 && err == acloseFailure && closed == acloseFailure.None?
    {
      if closed {
        return None;
      }
      acloseCalls := acloseCalls + 1;
      if acloseFailure.Some? {
        return acloseFailure;
      }
      closed := true;
      err := None;
    }

    /** The tool loop of `generate`: each allowed name is looked up in the
        custom table first, then in the provider table; the custom
        declarations are gathered into one tool placed after the provider
        tools. An unknown name raises 606 at once. */
    method ResolveTools(names: seq<string>) returns (r: Result<seq<Tool>, LLMError>)
      ensures match FirstUnknownTool(names, customTools, providerTools)
        case Some(t) => r == Err(NewLLMError(ToolNotFound, "Tool '" + t + "' not found"))
        case None => r == Ok(ResolvedTools(names, customTools, providerTools))
    {
      var tools: seq<Tool> := [];
      var funcs: seq<FunctionDeclaration> := [];
      var i := 0;
      while i < |names|
        invariant 0 <= i <= |names|
        invariant FirstUnknownTool(names[..i], customTools, providerTools).None?
        invariant funcs == CustomDeclarations(names[..i], customTools)
        invariant tools == ProviderToolsOf(names[..i], customTools, providerTools)
      {
        var tool := names[i];
        assert names[..i + 1][..i] == names[..i];
        if tool in customTools {
          funcs := funcs + [customTools[tool]];
        } else if tool in providerTools {
          tools := tools + [providerTools[tool]];
        } else {
          FirstUnknownAt(names, customTools, providerTools, i);
          return Err(NewLLMError(ToolNotFound, "Tool '" + tool + "' not found"));
        }
        i := i + 1;
      }
      assert names[..i] == names;
      if funcs != [] {
        tools := tools + [FunctionDeclarationsTool(funcs)];
      }
      assert tools == ResolvedTools(names, customTools, providerTools);
      r := Ok(tools);
    }

    /** The `config=` dictionary of `generate`: settings copied, then the
        request's overrides; an allowed tool in neither table raises 606
        before anything is sent. */
    method GenerationSettings(request: Request, config: ModelConfig) returns (r: Result<map<string, Setting>, LLMError>)
      ensures var names := AllowedNames(request);
        match FirstUnknownTool(names, customTools, providerTools)
        case Some(t) => r == Err(NewLLMError(ToolNotFound, "Tool '" + t + "' not found"))
        case None => r == Ok(Settings(config, request, ResolvedTools(names, customTools, providerTools)))
    {
      var generation := BaseSettings(config);
      if request.systemPrompt.Some? {
        generation := generation[SystemInstructionKey := Value(JStr(request.systemPrompt.value))];
      }
      if request.structuredOutput.Some? {
        generation := generation[MimeTypeKey := Value(JStr("application/json"))];
        generation := generation[SchemaKey := Value(request.structuredOutput.value)];
      }
      var names := AllowedNames(request);
      var resolved: seq<Tool> := [];
      if names != [] {
        var tools := ResolveTools(names);
        if tools.Err? {
          return Err(tools.error);
        }
        resolved := tools.value;
      } else {
        NoNamesNoTools(customTools, providerTools);
      }
      if resolved != [] {
        generation := generation[ToolsKey := ToolList(resolved)];
      }
      r := Ok(generation);
    }

    /** `generate`: settings, then contents, then one backend call whose outcome
        is `backend`. `sent` is the call made, if one was. */
    method Generate(request: Request, config: ModelConfig, backend: SdkResult<GenerateContentResponse>)
      returns (r: Result<Response, Raised>, sent: Option<GenerateContentCall>)
      ensures var unknown := FirstUnknownTool(AllowedNames(request), customTools, providerTools);
        unknown.Some? ==> sent.None? && r == Err(Llm(NewLLMError(ToolNotFound, "Tool '" + unknown.value + "' not found")))
      ensures FirstUnknownTool(AllowedNames(request), customTools, providerTools).None? && RequestContents(request).Err? ==>
        sent.None? && r == Err(RequestContents(request).error)
      ensures FirstUnknownTool(AllowedNames(request), customTools, providerTools).None? && RequestContents(request).Ok? ==>
        sent == Some(GenerateContentCall(config.name, RequestContents(request).value,
          Settings(config, request, ResolvedTools(AllowedNames(request), customTools, providerTools))))
        && r == (match backend
                 case Returned(resp) => DecideResponse(resp, request.id)
                 case Threw(e) => Err(Llm(CallFailure(e))))
      ensures r.Ok? ==> r.value.id == request.id && sent.Some?
    {
      var settings := GenerationSettings(request, config);
      if settings.Err? {
        return Err(Llm(settings.error)), None;
      }
      var contents := RequestContents(request);
      if contents.Err? {
        return Err(contents.error), None;
      }
      sent := Some(GenerateContentCall(config.name, contents.value, settings.value));
      match backend
      case Threw(e) =>
        r := Err(Llm(CallFailure(e)));
      case Returned(resp) =>
        r := DecideResponse(resp, request.id);
    }
  }

}
