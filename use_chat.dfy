/** The client chat hook: the request body the transport sends, the loading
    and error views, and the send path with its two guards and the creation
    of a conversation when none is active. The chat session of the AI SDK is
    foreign: what it is asked to send is recorded, and its error is a field. */
module UseChat {
  import opened Js
  import opened Types
  import opened ChatStore
  import ChatRoute

  const TitleLength := 30
  const Ellipsis := "..."
  const LoadingConfig := "正在加载配置，请稍候..."

  function NeedKey(p: Provider): string {
    "请先配置 " + Tag(p) + " 的 API Key"
  }

  /** The title of a new conversation: the content when it is at most 30
      characters long, and otherwise its first 30 characters and `'...'`. */
  function Title(content: string): (t: string)
    ensures |content| <= TitleLength ==> t == content
    ensures |content| > TitleLength ==>
      && |t| == TitleLength + |Ellipsis|
      && t[..TitleLength] == content[..TitleLength] && t[TitleLength..] == Ellipsis
    ensures |t| <= TitleLength + |Ellipsis|
  {
    content[..if |content| < TitleLength then |content| else TitleLength]
      + (if |content| > TitleLength then Ellipsis else "")
  }

  /** The status of the chat session. */
  datatype ChatStatus = Submitted | Streaming | Ready | Failed

  /** `isLoading`: the session is busy; neither a ready nor a failed
      session is loading. */
  predicate IsLoading(status: ChatStatus): (r: bool)
    ensures r <==> status != Ready && status != Failed
  {
    status == Submitted || status == Streaming
  }

  /** `chatError?.message || localError`: the session's error message when it
      has a non-empty one, otherwise the hook's own error. */
  function DisplayedError(chatErrorMessage: Option<string>, localError: Option<string>): (r: Option<string>)
    ensures Truthy(chatErrorMessage) ==> r == chatErrorMessage
    ensures !Truthy(chatErrorMessage) ==> r == localError
  {
    if Truthy(chatErrorMessage) then chatErrorMessage else localError
  }

  /** The body the transport posts: the session's messages, the current model
      and provider tag, and the stored encrypted key only when it is non-empty. */
  function RequestBody<M>(messages: seq<M>, model: string, provider: Provider, apiKeys: map<Provider, string>)
    : (r: ChatRoute.ChatRequest<M>)
    ensures r.messages == Some(messages) && r.model == Some(model) && r.provider == Some(Tag(provider))
    ensures r.encryptedApiKey.Some? <==> HasKey(apiKeys, provider)
    ensures r.encryptedApiKey.Some? ==> r.encryptedApiKey.value == apiKeys[provider]
  {
    var apiKey := StoredKey(apiKeys, provider);
    ChatRoute.ChatRequest(Some(messages), Some(model), Some(Tag(provider)),
      if apiKey != "" then Some(apiKey) else None)
  }

  /** The two guards of `handleSendMessage`, in order: the error they set, or
      none when the message may be sent. Google may send without a key. */
  function SendGuard(hasHydrated: bool, apiKeys: map<Provider, string>, provider: Provider): (r: Option<string>)
    ensures !hasHydrated ==> r == Some(LoadingConfig)
    ensures hasHydrated && !HasKey(apiKeys, provider) && provider != Google ==> r == Some(NeedKey(provider))
    ensures r.None? <==> hasHydrated && (HasKey(apiKeys, provider) || provider == Google)
  {
    if !hasHydrated then Some(LoadingConfig)
    else if StoredKey(apiKeys, provider) == "" && provider != Google then Some(NeedKey(provider))
    else None
  }

  /** The store's `_hasHydrated` as the hook reads it: the store declares no
      such member and nothing sets it, so the read yields `undefined`. */
  const HydrationFlagAsRead: Option<bool> := None

  /** The truthiness of the flag that `!_hasHydrated` tests. */
  predicate Hydrated(flag: Option<bool>): (r: bool)
    ensures r <==> flag == Some(true)
  {
    flag.Some? && flag.value
  }

  /** As written, the first guard refuses every send with the loading notice,
      whatever keys are stored and whichever provider is selected. */
  lemma SendRefusedAsWritten(apiKeys: map<Provider, string>, provider: Provider)
    ensures SendGuard(Hydrated(HydrationFlagAsRead), apiKeys, provider) == Some(LoadingConfig)
  {
  }

  /** The client guard and the server agree: a body the hook lets through is
      never refused as incomplete when a model is selected, and when the hook
      refuses for lack of a key the server, had the body been sent, would have
      found no key either. */
  lemma GuardMatchesRoute<M>(messages: seq<M>, model: string, provider: Provider, apiKeys: map<Provider, string>,
                             geminiApiKey: Option<string>, decrypt: string -> Outcome<string>)
    ensures var body := RequestBody(messages, model, provider, apiKeys);
      && (ChatRoute.MissingParameters(body) <==> model == "")
      && (Truthy(body.encryptedApiKey) <==> HasKey(apiKeys, provider))
      && (SendGuard(true, apiKeys, provider) == Some(NeedKey(provider)) ==>
            ChatRoute.ResolveKey(body.encryptedApiKey, Tag(provider), geminiApiKey, decrypt) == Returned(""))
  {
    var body := RequestBody(messages, model, provider, apiKeys);
    assert Tag(provider) != "" by { TagInjective(provider, Google); }
    if SendGuard(true, apiKeys, provider) == Some(NeedKey(provider)) {
      assert Tag(provider) != "google" by { TagInjective(provider, Google); }
    }
  }

  /** The conversation created for the first message: titled after it,
      on the current model, with no messages yet. */
  function NewConversation(id: string, content: string, model: string, now: int): (c: Conversation)
    ensures c.id == id && c.model == model && c.messages == []
    ensures c.title == Title(content) && |c.title| <= TitleLength + |Ellipsis|
    ensures c.createdAt == now && c.updatedAt == now
  {
    Conversation(id, Title(content), model, [], now, now)
  }

  /** The hook's own state; the selection, the keys and the conversations live
      in the store. */
  class ChatHook {
    const store: Store
    var localError: Option<string>
    /** The session's error message. */
    var chatError: Option<string>
    /** The texts handed to the session's `sendMessage`, in order. */
    var sent: seq<string>

    constructor (store: Store)
      ensures this.store == store && localError == None && chatError == None && sent == []
    {
      this.store := store;
      localError := None;
      chatError := None;
      sent := [];
    }

    /** `handleSendMessage`. `hasHydrated` is the store's rehydration flag,
        `newId` the fresh conversation id and `now` the current time. A refused
        send sets the guard's error and touches nothing else; an accepted one
        clears both errors, creates a conversation when none is active, and
        sends the text unchanged. */
    method HandleSendMessage(content: string, hasHydrated: bool, newId: string, now: int)
      modifies this, store
      ensures var guard := SendGuard(hasHydrated, old(store.apiKeys), old(store.currentProvider));
        && (guard.Some? ==>
              && localError == guard && chatError == old(chatError) && sent == old(sent)
              && store.conversations == old(store.conversations)
              && store.currentConversationId == old(store.currentConversationId))
        && (guard.None? ==>
              && localError == None && chatError == None && sent == old(sent) + [content]
              && (Truthy(old(store.currentConversationId)) ==>
                    && store.conversations == old(store.conversations)
                    && store.currentConversationId == old(store.currentConversationId))
              && (!Truthy(old(store.currentConversationId)) ==>
                    && store.conversations
                       == [NewConversation(newId, content, old(store.currentModel), now)] + old(store.conversations)
                    && store.currentConversationId == Some(newId)))
      ensures store.Partialize() == old(store.Partialize())
    {
      if !hasHydrated {
        localError := Some(LoadingConfig);
        return;
      }
      var apiKey := StoredKey(store.apiKeys, store.currentProvider);
      if apiKey == "" && store.currentProvider != Google {
        localError := Some(NeedKey(store.currentProvider));
        return;
      }
      localError := None;
      chatError := None;
      if !Truthy(store.currentConversationId) {
        var conversation := NewConversation(newId, content, store.currentModel, now);
        store.AddConversation(conversation);
      }
      sent := sent + [content];
    }

    /** `createNewChat`: no conversation is active afterwards; nothing is deleted. */
    method CreateNewChat()
      modifies store
      ensures store.currentConversationId == None
      ensures store.conversations == old(store.conversations)
      ensures store.Partialize() == old(store.Partialize())
    {
      store.SetCurrentConversation(None);
    }
  }
}
