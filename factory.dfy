/** The provider factory (`createProvider`, `getModel`): a switch over the
    provider tag that builds an SDK client. The SDK constructors are foreign, so a
    client is described by what it is built with. */
module Factory {
  import opened Js
  import opened Types

  /** Which SDK constructor builds the client, and so which wire dialect it speaks. */
  datatype Sdk = OpenAISdk | AnthropicSdk | GoogleSdk

  /** A transport override handed to a client as its `fetch` option. */
  datatype ProxyFetch = ProxyFetch(proxyUrl: string)

  /** A constructed client: its SDK, key, endpoint override and transport override. */
  datatype Client = Client(sdk: Sdk, apiKey: string, baseUrl: Option<string>, fetch: Option<ProxyFetch>)

  /** `client(modelId)` uses the SDK's default API; `client.chat(modelId)` the chat-completions API. */
  datatype Api = DefaultApi | ChatApi

  datatype ModelHandle = ModelHandle(client: Client, api: Api, modelId: string)

  /** The error thrown for a tag outside the five known ones. */
  function UnknownProvider(provider: string): Thrown {
    ErrorValue("Unknown provider: " + provider)
  }

  /** `createProvider`: the three native providers get only the key; deepseek and
      qwen get the OpenAI SDK pointed at their own endpoint. */
  function CreateProvider(provider: string, apiKey: string): (r: Outcome<Client>)
    ensures r.Threw? <==> ParseProvider(provider).None?
    ensures r.Threw? ==> r.thrown == UnknownProvider(provider)
    ensures r.Returned? ==>
      && r.value.apiKey == apiKey && r.value.fetch == None
      && r.value.baseUrl == Config(ParseProvider(provider).value).baseUrl
      && (r.value.baseUrl.Some? ==> r.value.sdk == OpenAISdk)
  {
    match provider
    case "openai" => Returned(Client(OpenAISdk, apiKey, None, None))
    case "anthropic" => Returned(Client(AnthropicSdk, apiKey, None, None))
    case "google" => Returned(Client(GoogleSdk, apiKey, None, None))
    case "deepseek" => Returned(Client(OpenAISdk, apiKey, Some("https://api.deepseek.com"), None))
    case "qwen" => Returned(Client(OpenAISdk, apiKey, Some("https://dashscope.aliyuncs.com/compatible-mode/v1"), None))
    case _ => Threw(UnknownProvider(provider))
  }

  /** `getModel`: the model id is handed to the client as it is, without a
      check against the registry's model list, and the key is not checked either. */
  function GetModel(provider: string, modelId: string, apiKey: string): (r: Outcome<ModelHandle>)
    ensures r.Threw? <==> ParseProvider(provider).None?
    ensures r.Threw? ==> r.thrown == UnknownProvider(provider)
    ensures r.Returned? ==>
      && r.value.modelId == modelId && r.value.api == DefaultApi
      && r.value.client == CreateProvider(provider, apiKey).value
  {
    match CreateProvider(provider, apiKey)
    case Threw(e) => Threw(e)
    case Returned(client) => Returned(ModelHandle(client, DefaultApi, modelId))
  }

  /** Each known tag is served by its own SDK: OpenAI, Anthropic and Google by
      their native SDKs, the two compatible providers by the OpenAI SDK. */
  lemma SdkPerProvider(p: Provider, apiKey: string)
    ensures CreateProvider(Tag(p), apiKey).Returned?
    ensures CreateProvider(Tag(p), apiKey).value.sdk
      == match p
         case Anthropic => AnthropicSdk
         case Google => GoogleSdk
         case _ => OpenAISdk
  {
  }
}
