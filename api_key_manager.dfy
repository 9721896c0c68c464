/** The API key manager dialog: per provider, enter a key (stored encrypted),
    reveal or hide a stored key, and see the first few model names. The AES
    cipher is foreign: encryption and decryption are parameters. */
module ApiKeyManager {
  import opened Js
  import opened Types
  import opened ChatStore

  /** What a hidden key shows: twenty bullets, whatever the key. */
  const Mask := "\U{2022}\U{2022}\U{2022}\U{2022}\U{2022}\U{2022}\U{2022}\U{2022}\U{2022}\U{2022}\U{2022}\U{2022}\U{2022}\U{2022}\U{2022}\U{2022}\U{2022}\U{2022}\U{2022}\U{2022}"

  /** What a revealed key shows when it does not decrypt to any text. */
  const DecryptionFailed := "解密失败"

  /** `decryptKey`: the cipher's plaintext, or `''` when the cipher throws; it
      never throws itself. */
  function DecryptKey(encrypted: string, aesDecrypt: string -> Outcome<string>): (r: string)
    ensures aesDecrypt(encrypted).Threw? ==> r == ""
    ensures aesDecrypt(encrypted).Returned? ==> r == aesDecrypt(encrypted).value
  {
    match aesDecrypt(encrypted)
    case Returned(text) => text
    case Threw(_) => ""
  }

  /** `showKey[provider]` is truthy: the flag is present and set. */
  predicate Shown(showKey: map<string, bool>, provider: string) {
    provider in showKey && showKey[provider]
  }

  /** `getMaskedKey`: the mask while hidden; once revealed, the decrypted text,
      or the failure notice when that text is empty. The result is never empty. */
  function MaskedKey(encrypted: string, provider: string, showKey: map<string, bool>,
                     aesDecrypt: string -> Outcome<string>): (r: string)
    ensures !Shown(showKey, provider) ==> r == Mask
    ensures Shown(showKey, provider) && DecryptKey(encrypted, aesDecrypt) != "" ==> r == DecryptKey(encrypted, aesDecrypt)
    ensures Shown(showKey, provider) && DecryptKey(encrypted, aesDecrypt) == "" ==> r == DecryptionFailed
    ensures r != ""
  {
    if Shown(showKey, provider) then
      var decrypted := DecryptKey(encrypted, aesDecrypt);
      if decrypted != "" then decrypted else DecryptionFailed
    else Mask
  }

  /** While hidden, nothing about the stored key or the cipher shows through. */
  lemma HiddenKeyRevealsNothing(e1: string, e2: string, provider: string, showKey: map<string, bool>,
                                d1: string -> Outcome<string>, d2: string -> Outcome<string>)
    requires !Shown(showKey, provider)
    ensures MaskedKey(e1, provider, showKey, d1) == MaskedKey(e2, provider, showKey, d2)
  {
  }

  /** The `setShowKey` updater of `toggleShowKey`: `{ ...prev, [provider]: !prev[provider] }`. */
  function Toggled(showKey: map<string, bool>, provider: string): (r: map<string, bool>)
    ensures r.Keys == showKey.Keys + {provider}
    ensures Shown(r, provider) == !Shown(showKey, provider)
    ensures forall q :: q != provider ==> (q in r <==> q in showKey) && Shown(r, q) == Shown(showKey, q)
  {
    showKey[provider := !Shown(showKey, provider)]
  }

  /** Toggling twice shows every key exactly as before. */
  lemma ToggleTwice(showKey: map<string, bool>, provider: string, q: string)
    ensures Shown(Toggled(Toggled(showKey, provider), provider), q) == Shown(showKey, q)
  {
  }

  /** The model chips of a provider card: the first (at most) three names, and
      the count of the rest when there are more than three. */
  datatype Chips = Chips(names: seq<string>, more: Option<nat>)

  function ModelChips(models: seq<string>): (c: Chips)
    ensures |c.names| == if |models| < 3 then |models| else 3
    ensures c.names == models[..|c.names|]
    ensures c.more.Some? <==> |models| > 3
    ensures |c.names| + (if c.more.Some? then c.more.value else 0) == |models|
  {
    if |models| > 3 then Chips(models[..3], Some(|models| - 3))
    else Chips(models, None)
  }

  /** On every registry card at least one chip is shown, and each model is
      either a chip or one of the models the marker counts, never both. */
  lemma {:induction false} ChipsAccountForEveryModel(p: Provider)
    ensures var models, c := Config(p).models, ModelChips(Config(p).models);
      && |c.names| > 0
      && (c.more.Some? ==> c.more.value == |models[|c.names|..]|)
      && (forall m :: m in models ==> (m in c.names <==> m !in models[|c.names|..]))
  {
    ModelListsWellFormed(p);
    var models := Config(p).models;
    var n := |ModelChips(models).names|;
    forall m | m in models
      ensures m in models[..n] <==> m !in models[n..]
    {
      assert models == models[..n] + models[n..];
      if m in models[..n] && m in models[n..] {
        assert false;
      }
    }
  }

  /** The dialog's own state; the keys live in the store. */
  class KeyManager {
    const store: Store
    var editingProvider: Option<Provider>
    var inputKey: string
    var showKey: map<string, bool>

    constructor (store: Store)
      ensures this.store == store
      ensures editingProvider == None && inputKey == "" && showKey == map[]
    {
      this.store := store;
      editingProvider := None;
      inputKey := "";
      showKey := map[];
    }

    /** The add button of a provider without a key. */
    method BeginEdit(p: Provider)
      modifies this
      ensures editingProvider == Some(p)
      ensures inputKey == old(inputKey) && showKey == old(showKey)
    {
      editingProvider := Some(p);
    }

    /** The input's `onChange`. */
    method SetInputKey(text: string)
      modifies this
      ensures inputKey == text
      ensures editingProvider == old(editingProvider) && showKey == old(showKey)
    {
      inputKey := text;
    }

    /** `handleSave`: with a provider being edited and a non-blank input, store
        the encryption of the trimmed input under that provider and end the
        edit; otherwise change nothing. */
    method HandleSave(encrypt: string -> string)
      modifies this, store
      ensures old(editingProvider).None? || Trim(old(inputKey)) == "" ==>
        && editingProvider == old(editingProvider) && inputKey == old(inputKey)
        && store.apiKeys == old(store.apiKeys)
      ensures old(editingProvider).Some? && Trim(old(inputKey)) != "" ==>
        && store.apiKeys == old(store.apiKeys)[old(editingProvider).value := encrypt(Trim(old(inputKey)))]
        && editingProvider == None && inputKey == ""
      ensures showKey == old(showKey)
      ensures store.currentProvider == old(store.currentProvider) && store.currentModel == old(store.currentModel)
      ensures store.conversations == old(store.conversations)
      ensures store.currentConversationId == old(store.currentConversationId)
    {
      var trimmed := Trim(inputKey);
      if editingProvider.Some? && trimmed != "" {
        var encrypted := encrypt(trimmed);
        store.SetApiKey(editingProvider.value, encrypted);
        editingProvider := None;
        inputKey := "";
      }
    }

    /** `toggleShowKey`: flips the visibility of one provider's key only. */
    method ToggleShowKey(provider: string)
      modifies this
      ensures showKey == Toggled(old(showKey), provider)
      ensures editingProvider == old(editingProvider) && inputKey == old(inputKey)
    {
      showKey := Toggled(showKey, provider);
    }
  }
}
