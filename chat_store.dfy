/** The client-side chat and settings store (`useChatStore`): the conversation
    list, the active conversation, the selected provider and model, and the
    encrypted key per provider. Each action replaces some fields through a pure
    list or map transform, defined here as functions and proved about by lemmas. */
module ChatStore {
  import opened Js
  import opened Types
  import Seqs

  /** `apiKeys[p] || ''`: the stored encrypted key, or the empty string. */
  function StoredKey(apiKeys: map<Provider, string>, p: Provider): string {
    if p in apiKeys then apiKeys[p] else ""
  }

  /** `!!apiKeys[p]`: a non-empty key is stored for `p`. */
  predicate HasKey(apiKeys: map<Provider, string>, p: Provider) {
    StoredKey(apiKeys, p) != ""
  }

  /** `addMessage`'s transform: append `m` to every conversation whose id is
      `id` and refresh its `updatedAt`; leave the others as they are. */
  function AppendMessage(cs: seq<Conversation>, id: string, m: Message, now: int): (r: seq<Conversation>)
    ensures |r| == |cs|
    ensures forall i :: 0 <= i < |cs| && cs[i].id != id ==> r[i] == cs[i]
    ensures forall i :: 0 <= i < |cs| && cs[i].id == id ==>
      && r[i].messages == cs[i].messages + [m] && r[i].updatedAt == now
      && r[i].id == id && r[i].title == cs[i].title && r[i].model == cs[i].model
      && r[i].createdAt == cs[i].createdAt
  {
    if cs == [] then []
    else
      var c := cs[0];
      [if c.id == id then c.(messages := c.messages + [m], updatedAt := now) else c]
        + AppendMessage(cs[1..], id, m, now)
  }

  /** The inner map of `updateMessage`: set the content of every message whose
      id is `mid`; ids, roles, tool calls and creation times stay as they were. */
  function ReplaceContent(ms: seq<Message>, mid: string, content: string): (r: seq<Message>)
    ensures |r| == |ms|
    ensures forall i :: 0 <= i < |ms| ==>
      && r[i].id == ms[i].id && r[i].role == ms[i].role
      && r[i].toolCalls == ms[i].toolCalls && r[i].createdAt == ms[i].createdAt
    ensures forall i :: 0 <= i < |ms| ==> r[i].content == if ms[i].id == mid then content else ms[i].content
  {
    if ms == [] then []
    else
      var m := ms[0];
      [if m.id == mid then m.(content := content) else m] + ReplaceContent(ms[1..], mid, content)
  }

  /** `updateMessage`'s transform: only the messages of the conversations whose
      id is `cid` change; `updatedAt` and every other field are kept. */
  function UpdateContent(cs: seq<Conversation>, cid: string, mid: string, content: string): (r: seq<Conversation>)
    ensures |r| == |cs|
    ensures forall i :: 0 <= i < |cs| && cs[i].id != cid ==> r[i] == cs[i]
    ensures forall i :: 0 <= i < |cs| && cs[i].id == cid ==>
      && r[i].messages == ReplaceContent(cs[i].messages, mid, content)
      && r[i].(messages := cs[i].messages) == cs[i]
  {
    if cs == [] then []
    else
      var c := cs[0];
      [if c.id == cid then c.(messages := ReplaceContent(c.messages, mid, content)) else c]
        + UpdateContent(cs[1..], cid, mid, content)
  }

  /** `deleteConversation`'s transform: `filter(c => c.id !== id)`. */
  function RemoveConversation(cs: seq<Conversation>, id: string): (r: seq<Conversation>)
    ensures |r| <= |cs|
    ensures forall i :: 0 <= i < |r| ==> r[i].id != id
  {
    Seqs.Filter(cs, (c: Conversation) => c.id != id)
  }

  /** `addMessage` with an id no conversation has changes nothing. */
  lemma AppendMessageNoMatch(cs: seq<Conversation>, id: string, m: Message, now: int)
    requires forall i :: 0 <= i < |cs| ==> cs[i].id != id
    ensures AppendMessage(cs, id, m, now) == cs
  {
  }

  /** Deleting removes every conversation with that id, keeps the rest in their
      order, and keeps each remaining conversation as often as it was there. */
  lemma RemoveConversationSpec(cs: seq<Conversation>, id: string)
    ensures forall c: Conversation :: c in RemoveConversation(cs, id) ==> c.id != id
    ensures Seqs.IsSubsequence(RemoveConversation(cs, id), cs)
    ensures forall c: Conversation :: c.id != id ==> multiset(RemoveConversation(cs, id))[c] == multiset(cs)[c]
  {
    var keep := (c: Conversation) => c.id != id;
    Seqs.FilterIsSubsequence(cs, keep);
    forall c: Conversation ensures multiset(RemoveConversation(cs, id))[c] == if keep(c) then multiset(cs)[c] else 0 {
      Seqs.FilterCount(cs, keep, c);
    }
  }

  /** Deleting a conversation that was just added, with an id no other
      conversation has, gives back the previous list. */
  lemma RemoveAfterAdd(c: Conversation, cs: seq<Conversation>)
    requires forall i :: 0 <= i < |cs| ==> cs[i].id != c.id
    ensures RemoveConversation([c] + cs, c.id) == cs
  {
    var keep := (d: Conversation) => d.id != c.id;
    Seqs.FilterAllKept(cs, keep);
    assert ([c] + cs)[1..] == cs;
  }

  /** Replacing the content of the last message, when no earlier message
      shares its id, is the same as having appended the new content. */
  lemma ReplaceContentOfAppended(ms: seq<Message>, m: Message, content: string)
    requires forall j :: 0 <= j < |ms| ==> ms[j].id != m.id
    ensures ReplaceContent(ms + [m], m.id, content) == ms + [m.(content := content)]
  {
    var r := ReplaceContent(ms + [m], m.id, content);
    assert forall j :: 0 <= j < |ms| ==> (ms + [m])[j] == ms[j];
  }

  /** The streaming pattern: adding a message and then updating its content is
      adding the message with the final content, as long as the message id is
      new in the target conversation. */
  lemma {:induction false} UpdateAfterAppend(cs: seq<Conversation>, cid: string, m: Message, now: int, content: string)
    requires forall i, j :: 0 <= i < |cs| && cs[i].id == cid && 0 <= j < |cs[i].messages| ==> cs[i].messages[j].id != m.id
    ensures UpdateContent(AppendMessage(cs, cid, m, now), cid, m.id, content)
         == AppendMessage(cs, cid, m.(content := content), now)
  {
    if cs != [] {
      UpdateAfterAppend(cs[1..], cid, m, now, content);
      if cs[0].id == cid {
        ReplaceContentOfAppended(cs[0].messages, m, content);
      }
    }
  }

  /** The persisted part of the store (`partialize`). */
  datatype Snapshot = Snapshot(apiKeys: map<Provider, string>, currentProvider: Provider, currentModel: string)

  class Store {
    var conversations: seq<Conversation>
    var currentConversationId: Option<string>
    var currentProvider: Provider
    var currentModel: string
    var apiKeys: map<Provider, string>

    /** The initial state. */
    constructor ()
      ensures conversations == [] && currentConversationId == None
      ensures currentProvider == OpenAI && currentModel == "gpt-4o" && apiKeys == map[]
    {
      conversations := [];
      currentConversationId := None;
      currentProvider := OpenAI;
      currentModel := "gpt-4o";
      apiKeys := map[];
    }

    /** A store reloaded from a persisted snapshot: the initial state with the
        snapshot's fields laid over it. */
    constructor Rehydrated(s: Snapshot)
      ensures Partialize() == s
      ensures conversations == [] && currentConversationId == None
    {
      conversations := [];
      currentConversationId := None;
      currentProvider := s.currentProvider;
      currentModel := s.currentModel;
      apiKeys := s.apiKeys;
    }

    /** The persisted snapshot: the keys and the selection, and neither the
        conversations nor the active id. */
    function Partialize(): (s: Snapshot)
      reads this
      ensures s.apiKeys == apiKeys && s.currentProvider == currentProvider && s.currentModel == currentModel
    {
      Snapshot(apiKeys, currentProvider, currentModel)
    }

    method SetCurrentConversation(id: Option<string>)
      modifies this
      ensures currentConversationId == id
      ensures conversations == old(conversations) && Partialize() == old(Partialize())
    {
      currentConversationId := id;
    }

    method AddConversation(c: Conversation)
      modifies this
      ensures conversations == [c] + old(conversations)
      ensures currentConversationId == Some(c.id)
      ensures Partialize() == old(Partialize())
    {
      conversations := [c] + conversations;
      currentConversationId := Some(c.id);
    }

    method AddMessage(conversationId: string, m: Message, now: int)
      modifies this
      ensures conversations == AppendMessage(old(conversations), conversationId, m, now)
      ensures currentConversationId == old(currentConversationId)
      ensures Partialize() == old(Partialize())
    {
      conversations := AppendMessage(conversations, conversationId, m, now);
    }

    method UpdateMessage(conversationId: string, messageId: string, content: string)
      modifies this
      ensures conversations == UpdateContent(old(conversations), conversationId, messageId, content)
      ensures currentConversationId == old(currentConversationId)
      ensures Partialize() == old(Partialize())
    {
      conversations := UpdateContent(conversations, conversationId, messageId, content);
    }

    /** Changes only the provider; the model is left as it was. */
    method SetProvider(p: Provider)
      modifies this
      ensures currentProvider == p
      ensures currentModel == old(currentModel) && apiKeys == old(apiKeys)
      ensures conversations == old(conversations) && currentConversationId == old(currentConversationId)
    {
      currentProvider := p;
    }

    method SetModel(model: string)
      modifies this
      ensures currentModel == model
      ensures currentProvider == old(currentProvider) && apiKeys == old(apiKeys)
      ensures conversations == old(conversations) && currentConversationId == old(currentConversationId)
    {
      currentModel := model;
    }

    method SetApiKey(p: Provider, encryptedKey: string)
      modifies this
      ensures apiKeys == old(apiKeys)[p := encryptedKey]
      ensures StoredKey(apiKeys, p) == encryptedKey
      ensures forall q :: q != p ==> (q in apiKeys <==> q in old(apiKeys)) && StoredKey(apiKeys, q) == StoredKey(old(apiKeys), q)
      ensures currentProvider == old(currentProvider) && currentModel == old(currentModel)
      ensures conversations == old(conversations) && currentConversationId == old(currentConversationId)
    {
      apiKeys := apiKeys[p := encryptedKey];
    }

    method RemoveApiKey(p: Provider)
      modifies this
      ensures apiKeys == old(apiKeys) - {p}
      ensures p !in apiKeys && !HasKey(apiKeys, p)
      ensures forall q :: q != p ==> (q in apiKeys <==> q in old(apiKeys)) && StoredKey(apiKeys, q) == StoredKey(old(apiKeys), q)
      ensures currentProvider == old(currentProvider) && currentModel == old(currentModel)
      ensures conversations == old(conversations) && currentConversationId == old(currentConversationId)
    {
      apiKeys := apiKeys - {p};
    }

    /** Removes the conversations with that id; the active id is cleared exactly
        when it was the deleted one. */
    method DeleteConversation(id: string)
      modifies this
      ensures conversations == RemoveConversation(old(conversations), id)
      ensures currentConversationId == if old(currentConversationId) == Some(id) then None else old(currentConversationId)
      ensures Partialize() == old(Partialize())
    {
      conversations := RemoveConversation(conversations, id);
      if currentConversationId == Some(id) {
        currentConversationId := None;
      }
    }
  }
}
