/** The provider factory. The client protocol (`generate`, `close`) has one
    implementation, `GoogleProvider.GoogleClient`, which the factory returns. */
module Client {

  import opened Results
  import opened Text
  import opened Errors
  import opened Genai
  import opened Datatypes
  import GoogleProvider

  datatype Provider = GoogleProviderKind

  const NotFoundPrefix: string := "Provider in LLMClient initialization not found: "

  /** The `match config.name` of `get_client`: only "google" is supported, any
      other name is error 600 whose text ends with that name. */
  function SelectProvider(name: string): (r: Result<Provider, LLMError>)
    ensures r.Ok? <==> name == GoogleProvider.Google
    ensures r.Err? ==>
      (r.error.statusCode == UnsupportedProvider && r.error.cls == LLMErrorClass && EndsWith(r.error.response, name))
  {
    if name == GoogleProvider.Google then Ok(GoogleProviderKind)
    else Err(NewLLMError(UnsupportedProvider, NotFoundPrefix + name))
  }

  /** The unsupported name can be found in the error text. */
  lemma UnsupportedNameInMessage(name: string)
    requires name != GoogleProvider.Google
    ensures IsSubstring(name, SelectProvider(name).error.response)
  {
    SuffixIsSubstring(SelectProvider(name).error.response, name);
  }

  /** `get_client(config)`: for "google" a client built without custom tools
      (`sdkInit` is what building its SDK client raised, if anything); for any
      other name error 600, and no client is built. */
  method GetClient(config: ProviderConfig, sdkInit: Option<SdkError>)
    returns (r: Result<GoogleProvider.GoogleClient, Raised>)
    ensures config.name != GoogleProvider.Google ==> r == Err(Llm(SelectProvider(config.name).error))
    ensures config.name == GoogleProvider.Google && sdkInit.None? ==>
      (r.Ok? && fresh(r.value) && !r.value.closed && r.value.acloseCalls == 0
       && r.value.customTools == map[] && r.value.providerTools == GoogleProvider.ProviderTools)
    ensures config.name == GoogleProvider.Google && sdkInit.Some? && sdkInit.value.ApiError? ==>
      r == Err(Llm(GoogleProvider.ClassifyApiError(sdkInit.value.code, GoogleProvider.MessageOrEmpty(sdkInit.value.message))))
    ensures config.name == GoogleProvider.Google && sdkInit.Some? && sdkInit.value.OtherException? ==>
      r == Err(Foreign(sdkInit.value.className, sdkInit.value.text))
  {
    match SelectProvider(config.name)
    case Err(e) =>
      r := Err(Llm(e));
    case Ok(GoogleProviderKind) =>
      r := GoogleProvider.GoogleClient.Init(None, sdkInit);
  }
}
