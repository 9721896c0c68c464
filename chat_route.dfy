/** The chat endpoint (`POST /api/chat`): validate the body, resolve the key
    (decrypt, then the Google-only server default), build the model through the
    route's own provider switch, and stream; every thrown value becomes a 500.
    Decryption, message conversion and the SDK are parameters or descriptors. */
module ChatRoute {
  import opened Js
  import opened Types
  import opened Factory

  /** The parsed JSON body; every field may be absent. */
  datatype ChatRequest<M> = ChatRequest(
    messages: Option<seq<M>>, model: Option<string>, provider: Option<string>, encryptedApiKey: Option<string>)

  /** Process environment: `GEMINI_API_KEY`, `HTTPS_PROXY`, and whether the proxy
      agent module can be loaded and constructed. */
  datatype Env = Env(geminiApiKey: Option<string>, httpsProxy: Option<string>, proxyAgentAvailable: bool)

  datatype ErrorBody = ErrorBody(error: string, details: Option<string>)

  /** A JSON error response, or the streamed generation of `model` over `messages`. */
  datatype Response<C> = JsonResponse(status: int, body: ErrorBody) | StreamResponse(model: ModelHandle, messages: C)

  /** The foreign steps the handler has started, in order. */
  datatype Effect = DecryptCalled | ProxyCreated | GetModelCalled | ConvertCalled

  /** `!messages || !model || !provider`: a field is absent, or a string
      field is empty. */
  predicate MissingParameters<M>(req: ChatRequest<M>): (r: bool)
    ensures r <==> req.messages.None? || req.model in {None, Some("")} || req.provider in {None, Some("")}
  {
    req.messages.None? || !Truthy(req.model) || !Truthy(req.provider)
  }

  function BadRequest<C>(): Response<C> {
    JsonResponse(400, ErrorBody("Missing required parameters", None))
  }

  function MissingKey<C>(provider: string): Response<C> {
    JsonResponse(401, ErrorBody("请配置 " + provider + " 的 API Key", None))
  }

  /** The catch-all: the message of an `Error`, otherwise `'Unknown error'`. */
  function Failure<C>(t: Thrown): (r: Response<C>)
    ensures r.JsonResponse? && r.status == 500 && r.body.error == "Failed to process chat request"
    ensures t.ErrorValue? ==> r.body.details == Some(t.message)
    ensures t.OtherValue? ==> r.body.details == Some("Unknown error")
  {
    JsonResponse(500, ErrorBody("Failed to process chat request",
      Some(if t.ErrorValue? then t.message else "Unknown error")))
  }

  /** `createProxyFetch`: a transport only when a proxy is configured and the
      agent can be built; every failure yields none. */
  function CreateProxyFetch(httpsProxy: Option<string>, agentAvailable: bool): (r: Option<ProxyFetch>)
    ensures r.Some? <==> Truthy(httpsProxy) && agentAvailable
    ensures r.Some? ==> r.value.proxyUrl == httpsProxy.value
  {
    if !Truthy(httpsProxy) then None
    else if agentAvailable then Some(ProxyFetch(httpsProxy.value))
    else None
  }

  /** The route's own `getModel`: the proxy transport is attached for the three
      native providers only; deepseek and qwen use their fixed endpoints and the
      chat-completions API. */
  function GetModel(provider: string, modelId: string, apiKey: string, proxyFetch: Option<ProxyFetch>): (r: Outcome<ModelHandle>)
    ensures r.Threw? <==> ParseProvider(provider).None?
    ensures r.Threw? ==> r.thrown == UnknownProvider(provider)
    ensures r.Returned? ==>
      var p := ParseProvider(provider).value;
      && r.value.modelId == modelId && r.value.client.apiKey == apiKey
      && r.value.client.baseUrl == Config(p).baseUrl
      && r.value.client.fetch == (if p in {OpenAI, Anthropic, Google} then proxyFetch else None)
      && r.value.api == (if p in {DeepSeek, Qwen} then ChatApi else DefaultApi)
  {
    match provider
    case "openai" => Returned(ModelHandle(Client(OpenAISdk, apiKey, None, proxyFetch), DefaultApi, modelId))
    case "anthropic" => Returned(ModelHandle(Client(AnthropicSdk, apiKey, None, proxyFetch), DefaultApi, modelId))
    case "google" => Returned(ModelHandle(Client(GoogleSdk, apiKey, None, proxyFetch), DefaultApi, modelId))
    case "deepseek" =>
      Returned(ModelHandle(Client(OpenAISdk, apiKey, Some("https://api.deepseek.com"), None), ChatApi, modelId))
    case "qwen" =>
      Returned(ModelHandle(Client(OpenAISdk, apiKey, Some("https://dashscope.aliyuncs.com/compatible-mode/v1"), None), ChatApi, modelId))
    case _ => Threw(UnknownProvider(provider))
  }

  /** The route's switch and the factory's agree on the tags they accept, the SDK,
      the key and the endpoint; they differ only in the transport, which only the
      route attaches, and in the API entry point of deepseek and qwen. */
  lemma DispatchersAgree(provider: string, modelId: string, apiKey: string, proxyFetch: Option<ProxyFetch>)
    ensures GetModel(provider, modelId, apiKey, proxyFetch).Threw?
        == Factory.GetModel(provider, modelId, apiKey).Threw?
    ensures GetModel(provider, modelId, apiKey, proxyFetch).Returned? ==>
      var route, factory := GetModel(provider, modelId, apiKey, proxyFetch).value, Factory.GetModel(provider, modelId, apiKey).value;
      && route.client.(fetch := None) == factory.client
      && route.modelId == factory.modelId
      && (route.api == factory.api <==> provider != "deepseek" && provider != "qwen")
  {
  }

  /** Key resolution (the local `apiKey` of the handler): a supplied key is
      decrypted; an empty result or no key falls back to the server default only
      for google and only when one is configured; `""` means no usable key. */
  function ResolveKey(encryptedApiKey: Option<string>, provider: string, geminiApiKey: Option<string>,
                      decrypt: string -> Outcome<string>): (r: Outcome<string>)
    ensures Truthy(encryptedApiKey) && decrypt(encryptedApiKey.value).Threw? ==> r == decrypt(encryptedApiKey.value)
    ensures Truthy(encryptedApiKey) && decrypt(encryptedApiKey.value).Returned? && decrypt(encryptedApiKey.value).value != ""
      ==> r == decrypt(encryptedApiKey.value)
    ensures !Truthy(encryptedApiKey) || decrypt(encryptedApiKey.value) == Returned("") ==>
      r == (if provider == "google" && Truthy(geminiApiKey) then Returned(geminiApiKey.value) else Returned(""))
  {
    var decrypted := if Truthy(encryptedApiKey) then decrypt(encryptedApiKey.value) else Returned("");
    match decrypted
    case Threw(e) => Threw(e)
    case Returned(k) =>
      if k == "" && provider == "google" && Truthy(geminiApiKey) then Returned(geminiApiKey.value)
      else Returned(k)
  }

  /** No provider other than google ever receives the server default: its key is
      what decryption gave, or nothing. */
  lemma DefaultKeyOnlyForGoogle(encryptedApiKey: Option<string>, provider: string, geminiApiKey: Option<string>,
                                decrypt: string -> Outcome<string>)
    requires provider != "google"
    ensures var r := ResolveKey(encryptedApiKey, provider, geminiApiKey, decrypt);
      r == Returned("") || (Truthy(encryptedApiKey) && r == decrypt(encryptedApiKey.value))
  {
  }

  /** The handler. `body` is the outcome of `req.json()`, `decrypt` the server's
      decryption and `convert` the conversion to model messages; `effects` lists
      the foreign steps started. */
  method Post<M, C>(body: Outcome<ChatRequest<M>>, env: Env, decrypt: string -> Outcome<string>,
                    convert: seq<M> -> Outcome<C>)
    returns (r: Response<C>, effects: seq<Effect>)
    ensures body.Threw? ==> r == Failure(body.thrown) && effects == []
    ensures r.JsonResponse? && r.status == 400 <==> body.Returned? && MissingParameters(body.value)
    ensures body.Returned? && MissingParameters(body.value) ==> r == BadRequest() && effects == []
    ensures body.Returned? && !MissingParameters(body.value) ==>
      var req := body.value;
      var provider := req.provider.value;
      var key := ResolveKey(req.encryptedApiKey, provider, env.geminiApiKey, decrypt);
      var proxy := CreateProxyFetch(env.httpsProxy, env.proxyAgentAvailable);
      && (DecryptCalled in effects <==> Truthy(req.encryptedApiKey))
      && (GetModelCalled in effects <==> key.Returned? && key.value != "")
      && (key.Threw? ==> r == Failure(key.thrown))
      && (key == Returned("") ==> r == MissingKey(provider))
      && (key.Returned? && key.value != "" ==>
            var m := GetModel(provider, req.model.value, key.value, proxy);
            && (m.Threw? ==> r == Failure(m.thrown) && ConvertCalled !in effects)
            && (m.Returned? ==>
                  && ConvertCalled in effects
                  && var conv := convert(req.messages.value);
                  r == if conv.Threw? then Failure(conv.thrown) else StreamResponse(m.value, conv.value)))
    ensures r.JsonResponse? ==> r.status in {400, 401, 500}
    ensures r.JsonResponse? && r.status == 401 ==> GetModelCalled !in effects
    ensures r.StreamResponse? ==> r.model.client.apiKey != ""
  {
    effects := [];
    if body.Threw? {
      r := Failure(body.thrown);
      return;
    }
    var req := body.value;
    if MissingParameters(req) {
      r := BadRequest();
      return;
    }
    var provider := req.provider.value;

    // `undefined` and `""` are both "no key".
    var apiKey := "";
    if Truthy(req.encryptedApiKey) {
      effects := effects + [DecryptCalled];
      var decrypted := decrypt(req.encryptedApiKey.value);
      if decrypted.Threw? {
        r := Failure(decrypted.thrown);
        return;
      }
      apiKey := decrypted.value;
    }
    if apiKey == "" && provider == "google" && Truthy(env.geminiApiKey) {
      apiKey := env.geminiApiKey.value;
    }
    if apiKey == "" {
      r := MissingKey(provider);
      return;
    }

    var proxyFetch := CreateProxyFetch(env.httpsProxy, env.proxyAgentAvailable);
    effects := effects + [ProxyCreated, GetModelCalled];
    var model := GetModel(provider, req.model.value, apiKey, proxyFetch);
    if model.Threw? {
      r := Failure(model.thrown);
      return;
    }
    effects := effects + [ConvertCalled];
    var converted := convert(req.messages.value);
    if converted.Threw? {
      r := Failure(converted.thrown);
      return;
    }
    r := StreamResponse(model.value, converted.value);
  }
}
