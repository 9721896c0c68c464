/** The model selector menu: one group per provider that has a stored key, in
    registry order, listing that provider's registry models; the current
    selection is highlighted, and choosing a row selects it and closes the menu. */
module ModelSelector {
  import opened Types
  import opened ChatStore
  import Seqs

  /** `availableProviders`: the registry entries whose stored key is truthy, in
      the registry's enumeration order. */
  function AvailableProviders(apiKeys: map<Provider, string>): (r: seq<Provider>)
    ensures forall p :: p in r <==> HasKey(apiKeys, p)
    ensures Seqs.IsSubsequence(r, RegistryOrder)
    ensures Seqs.Distinct(r)
  {
    var keep := (p: Provider) => HasKey(apiKeys, p);
    RegistryHasEveryProvider();
    Seqs.FilterIsSubsequence(RegistryOrder, keep);
    Seqs.FilterDistinct(RegistryOrder, keep);
    forall p ensures p in Seqs.Filter(RegistryOrder, keep) <==> HasKey(apiKeys, p) {
      Seqs.FilterMembership(RegistryOrder, keep, p);
    }
    Seqs.Filter(RegistryOrder, keep)
  }

  /** A model button and whether it is shown as the current selection. */
  datatype Row = Row(model: string, highlighted: bool)

  datatype Group = Group(provider: Provider, name: string, rows: seq<Row>)

  /** The open menu: the prompt to configure a key, or the provider groups. */
  datatype Menu = ConfigurePrompt | Groups(groups: seq<Group>)

  /** The highlight predicate of a row. */
  predicate IsHighlighted(p: Provider, model: string, currentProvider: Provider, currentModel: string) {
    currentProvider == p && currentModel == model
  }

  /** The buttons of one provider's group, one per registry model, in order. */
  function Rows(p: Provider, models: seq<string>, currentProvider: Provider, currentModel: string): (r: seq<Row>)
    ensures |r| == |models|
    ensures forall j :: 0 <= j < |r| ==>
      r[j].model == models[j] && (r[j].highlighted <==> IsHighlighted(p, models[j], currentProvider, currentModel))
  {
    if models == [] then []
    else
      [Row(models[0], IsHighlighted(p, models[0], currentProvider, currentModel))]
        + Rows(p, models[1..], currentProvider, currentModel)
  }

  /** One group per listed provider, in the same order. */
  function GroupsOf(ps: seq<Provider>, currentProvider: Provider, currentModel: string): (r: seq<Group>)
    ensures |r| == |ps|
    ensures forall i :: 0 <= i < |r| ==>
      && r[i].provider == ps[i] && r[i].name == Config(ps[i]).name
      && r[i].rows == Rows(ps[i], Config(ps[i]).models, currentProvider, currentModel)
  {
    if ps == [] then []
    else
      [Group(ps[0], Config(ps[0]).name, Rows(ps[0], Config(ps[0]).models, currentProvider, currentModel))]
        + GroupsOf(ps[1..], currentProvider, currentModel)
  }

  /** What the open menu shows. */
  function MenuOf(apiKeys: map<Provider, string>, currentProvider: Provider, currentModel: string): (m: Menu)
    ensures m.ConfigurePrompt? <==> forall p :: !HasKey(apiKeys, p)
    ensures m.Groups? ==> m.groups == GroupsOf(AvailableProviders(apiKeys), currentProvider, currentModel)
  {
    var available := AvailableProviders(apiKeys);
    if |available| == 0 then ConfigurePrompt else Groups(GroupsOf(available, currentProvider, currentModel))
  }

  /** Every row of the menu offers a model from its own provider's registry
      list, and only providers with a stored key have a group. */
  lemma RowsComeFromRegistry(apiKeys: map<Provider, string>, currentProvider: Provider, currentModel: string)
    ensures var m := MenuOf(apiKeys, currentProvider, currentModel);
      m.Groups? ==> forall i, j :: 0 <= i < |m.groups| && 0 <= j < |m.groups[i].rows| ==>
        && HasKey(apiKeys, m.groups[i].provider)
        && m.groups[i].rows[j].model in Config(m.groups[i].provider).models
  {
  }

  /** At most one row of the whole menu is highlighted: providers appear once
      and each provider lists a model once. */
  lemma AtMostOneHighlighted(apiKeys: map<Provider, string>, currentProvider: Provider, currentModel: string,
                             i: int, j: int, k: int, l: int)
    requires var m := MenuOf(apiKeys, currentProvider, currentModel);
      && m.Groups?
      && 0 <= i < |m.groups| && 0 <= j < |m.groups[i].rows| && m.groups[i].rows[j].highlighted
      && 0 <= k < |m.groups| && 0 <= l < |m.groups[k].rows| && m.groups[k].rows[l].highlighted
    ensures i == k && j == l
  {
    var available := AvailableProviders(apiKeys);
    var gs := GroupsOf(available, currentProvider, currentModel);
    assert available[i] == currentProvider == available[k];
    ModelListsWellFormed(currentProvider);
    var models := Config(currentProvider).models;
    assert models[j] == currentModel == models[l];
  }

  /** The selection is highlighted exactly when its provider has a stored key
      and its model is one that provider offers. */
  lemma SelectionShownIff(apiKeys: map<Provider, string>, currentProvider: Provider, currentModel: string)
    ensures var m := MenuOf(apiKeys, currentProvider, currentModel);
      (m.Groups? && exists i, j :: 0 <= i < |m.groups| && 0 <= j < |m.groups[i].rows| && m.groups[i].rows[j].highlighted)
      <==> HasKey(apiKeys, currentProvider) && currentModel in Config(currentProvider).models
  {
    var m := MenuOf(apiKeys, currentProvider, currentModel);
    var available := AvailableProviders(apiKeys);
    if HasKey(apiKeys, currentProvider) && currentModel in Config(currentProvider).models {
      var i :| 0 <= i < |available| && available[i] == currentProvider;
      var j :| 0 <= j < |Config(currentProvider).models| && Config(currentProvider).models[j] == currentModel;
      assert m.groups[i].rows[j].highlighted;
    }
  }

  /** Choosing a row of the menu keeps the menu's layout, and in the new menu
      that row, and only that row, is highlighted. */
  lemma ChoiceIsHighlighted(apiKeys: map<Provider, string>, currentProvider: Provider, currentModel: string,
                            i: int, j: int)
    requires var m := MenuOf(apiKeys, currentProvider, currentModel);
      m.Groups? && 0 <= i < |m.groups| && 0 <= j < |m.groups[i].rows|
    ensures var m := MenuOf(apiKeys, currentProvider, currentModel);
      var p, model := m.groups[i].provider, m.groups[i].rows[j].model;
      var m' := MenuOf(apiKeys, p, model);
      && m'.Groups? && |m'.groups| == |m.groups| && |m'.groups[i].rows| == |m.groups[i].rows|
      && m'.groups[i].rows[j].highlighted
      && forall k, l :: 0 <= k < |m'.groups| && 0 <= l < |m'.groups[k].rows| && m'.groups[k].rows[l].highlighted
           ==> k == i && l == j
  {
    var m := MenuOf(apiKeys, currentProvider, currentModel);
    var p, model := m.groups[i].provider, m.groups[i].rows[j].model;
    forall k, l | 0 <= k < |MenuOf(apiKeys, p, model).groups| && 0 <= l < |MenuOf(apiKeys, p, model).groups[k].rows|
        && MenuOf(apiKeys, p, model).groups[k].rows[l].highlighted
      ensures k == i && l == j
    {
      AtMostOneHighlighted(apiKeys, p, model, i, j, k, l);
    }
  }

  /** The menu's own state; the selection lives in the store. */
  class Selector {
    const store: Store
    var isOpen: bool

    constructor (store: Store)
      ensures this.store == store && !isOpen
    {
      this.store := store;
      isOpen := false;
    }

    /** The toggle button. */
    method Toggle()
      modifies this
      ensures isOpen == !old(isOpen)
    {
      isOpen := !isOpen;
    }

    /** A click outside the menu. */
    method Close()
      modifies this
      ensures !isOpen
    {
      isOpen := false;
    }

    /** A row's click handler: select the pair and close the menu; keys and
        conversations are untouched (see `ChoiceIsHighlighted`). */
    method Choose(p: Provider, model: string)
      modifies this, store
      ensures store.currentProvider == p && store.currentModel == model && !isOpen
      ensures store.apiKeys == old(store.apiKeys)
      ensures store.conversations == old(store.conversations)
      ensures store.currentConversationId == old(store.currentConversationId)
    {
      store.SetProvider(p);
      store.SetModel(model);
      isOpen := false;
    }
  }
}
