/** The shared data model: provider tags, the provider registry, the default
    selection, and the shapes of messages, tool calls and conversations. */
module Types {
  import opened Js
  import Seqs

  /** `AIProvider`: exactly five tags. */
  datatype Provider = Google | OpenAI | Anthropic | DeepSeek | Qwen

  /** The wire spelling of each tag. */
  function Tag(p: Provider): string {
    match p
    case Google => "google"
    case OpenAI => "openai"
    case Anthropic => "anthropic"
    case DeepSeek => "deepseek"
    case Qwen => "qwen"
  }

  /** Reading a provider tag from a request, where any string may arrive. */
  function ParseProvider(s: string): (r: Option<Provider>)
    ensures r.Some? ==> Tag(r.value) == s
    ensures forall p :: Tag(p) == s ==> r == Some(p)
  {
    if s == "google" then Some(Google)
    else if s == "openai" then Some(OpenAI)
    else if s == "anthropic" then Some(Anthropic)
    else if s == "deepseek" then Some(DeepSeek)
    else if s == "qwen" then Some(Qwen)
    else None
  }

  lemma TagInjective(p: Provider, q: Provider)
    ensures Tag(p) == Tag(q) <==> p == q
  {
    assert ParseProvider(Tag(p)) == Some(p);
  }

  datatype Role = User | Assistant | System | Tool

  /** `ToolCall`: arguments and result are JSON values, kept here as their text. */
  datatype ToolCall = ToolCall(id: string, name: string, arguments: map<string, string>, result: Option<string>)

  /** Timestamps are milliseconds since the epoch, supplied by the caller. */
  datatype Message = Message(id: string, role: Role, content: string, toolCalls: Option<seq<ToolCall>>, createdAt: int)

  datatype Conversation = Conversation(
    id: string, title: string, model: string, messages: seq<Message>, createdAt: int, updatedAt: int)

  datatype ProviderConfig = ProviderConfig(name: string, models: seq<string>, baseUrl: Option<string>)

  const DeepSeekBaseUrl := "https://api.deepseek.com"
  const QwenBaseUrl := "https://dashscope.aliyuncs.com/compatible-mode/v1"

  /** `PROVIDERS`, as a record keyed by tag. */
  const Providers: map<Provider, ProviderConfig> := map[
    Google := ProviderConfig("Google Gemini",
      ["gemini-2.5-flash", "gemini-2.0-flash", "gemini-2.5-pro", "gemini-3-pro-preview"], None),
    OpenAI := ProviderConfig("OpenAI", ["gpt-4o", "gpt-4o-mini", "gpt-4-turbo", "gpt-3.5-turbo"], None),
    Anthropic := ProviderConfig("Anthropic",
      ["claude-sonnet-4-20250514", "claude-3-5-sonnet-20241022", "claude-3-opus-20240229", "claude-3-haiku-20240307"], None),
    DeepSeek := ProviderConfig("DeepSeek", ["deepseek-chat", "deepseek-coder"], Some(DeepSeekBaseUrl)),
    Qwen := ProviderConfig("Qwen", ["qwen-turbo", "qwen-plus", "qwen-max"], Some(QwenBaseUrl))
  ]

  /** The order in which `Object.entries(PROVIDERS)` enumerates the registry. */
  const RegistryOrder: seq<Provider> := [Google, OpenAI, Anthropic, DeepSeek, Qwen]

  const DefaultProvider: Provider := Google
  const DefaultModel: string := "gemini-2.5-flash"

  function Config(p: Provider): ProviderConfig {
    RegistryHasEveryProvider();
    Providers[p]
  }

  /** The registry has one entry per tag and its enumeration lists each tag once. */
  lemma RegistryHasEveryProvider()
    ensures forall p: Provider :: p in Providers && p in RegistryOrder
    ensures |Providers| == |RegistryOrder| == 5 && Seqs.Distinct(RegistryOrder)
  {
    forall p: Provider ensures p in Providers && p in RegistryOrder {
      match p
      case Google => assert RegistryOrder[0] == p;
      case OpenAI => assert RegistryOrder[1] == p;
      case Anthropic => assert RegistryOrder[2] == p;
      case DeepSeek => assert RegistryOrder[3] == p;
      case Qwen => assert RegistryOrder[4] == p;
    }
    assert Providers.Keys == {Google, OpenAI, Anthropic, DeepSeek, Qwen};
  }

  /** Every provider offers at least one model and never lists a model twice. */
  lemma ModelListsWellFormed(p: Provider)
    ensures |Config(p).models| > 0
    ensures Seqs.Distinct(Config(p).models)
  {
  }

  /** Only the two OpenAI-compatible providers carry a base URL override. */
  lemma BaseUrlOnlyForCompatibleProviders(p: Provider)
    ensures Config(p).baseUrl.Some? <==> p == DeepSeek || p == Qwen
    ensures p == DeepSeek ==> Config(p).baseUrl == Some("https://api.deepseek.com")
    ensures p == Qwen ==> Config(p).baseUrl == Some("https://dashscope.aliyuncs.com/compatible-mode/v1")
  {
  }

  /** The default model is one the default provider offers. */
  lemma DefaultModelOffered()
    ensures DefaultModel in Config(DefaultProvider).models
  {
  }
}
