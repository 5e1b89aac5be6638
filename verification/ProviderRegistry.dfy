/** What the resolver publishes, and the registry that indexes it. */
module ProviderRegistry {
  import opened Wrappers
  import opened OwnedOrder
  import opened Sequences

  /** The facts about a provider that decide what is published; a model is listed when it can be executed. */
  datatype Rule = Rule(
    builtinModels: seq<Id>, personalModels: seq<Id>, modelOrder: seq<Id>, complete: bool, executable: set<Id>)

  datatype Provider = Provider(id: Id, models: seq<Id>)

  /** The providers of each layer, and which of them belong to the two built-in families. */
  datatype Input = Input(
    builtinKeys: seq<Id>, personalKeys: seq<Id>, effectiveKeys: seq<Id>, family: set<Id>, rules: map<Id, Rule>,
    requested: seq<Id>)

  /** Map keys are distinct; the effective providers are those of either layer, and each has its rule. */
  ghost predicate WellFormed(x: Input) {
    && Distinct(x.builtinKeys) && Distinct(x.personalKeys)
    && Lists(x.effectiveKeys, x.builtinKeys, x.personalKeys)
    && x.rules.Keys == Members(x.effectiveKeys)
  }

  /** The families come first, then the others in the order that the user asked for. */
  function ProviderOrder(x: Input): seq<Id> {
    var familyIds := Only(x.effectiveKeys, x.family);
    var builtinIds := Except(x.builtinKeys, Members(familyIds));
    var personalIds := Except(Except(x.personalKeys, Members(builtinIds)), Members(familyIds));
    familyIds + ResolveOwnedOrder(builtinIds, personalIds, x.requested)
  }

  /** Every effective provider is listed once. */
  lemma ProviderOrderLists(x: Input)
    requires WellFormed(x)
    ensures Distinct(ProviderOrder(x)) && forall p :: p in ProviderOrder(x) <==> p in x.effectiveKeys
  {
    hide ResolveOwnedOrder;
    var familyIds := Only(x.effectiveKeys, x.family);
    var builtinIds := Except(x.builtinKeys, Members(familyIds));
    var personalIds := Except(Except(x.personalKeys, Members(builtinIds)), Members(familyIds));
    OnlyIsDistinct(x.effectiveKeys, x.family);
    OrderLists(builtinIds, personalIds, x.requested);
    DistinctJoined(familyIds, ResolveOwnedOrder(builtinIds, personalIds, x.requested));
  }

  function ModelOrder(rule: Rule): seq<Id> {
    var builtin := UniqueInOrder(rule.builtinModels);
    ResolveOwnedOrder(builtin, Except(UniqueInOrder(rule.personalModels), Members(builtin)), rule.modelOrder)
  }

  function ValidModels(rule: Rule): seq<Id> {
    Only(ModelOrder(rule), rule.executable)
  }

  /** Incomplete providers, and those without an executable model, are not published. */
  function Published(rules: map<Id, Rule>, order: seq<Id>): seq<Provider>
    requires forall p :: p in order ==> p in rules
  {
    if order == [] then []
    else
      var rule := rules[order[0]];
      (if rule.complete && ValidModels(rule) != [] then [Provider(order[0], ValidModels(rule))] else [])
      + Published(rules, order[1..])
  }

  function Resolved(x: Input): seq<Provider>
    requires forall p :: p in ProviderOrder(x) ==> p in x.rules
  {
    Published(x.rules, ProviderOrder(x))
  }

  /** No provider appears twice, and no model twice within its provider. */
  ghost predicate NoDuplicates(view: seq<Provider>) {
    && (forall j, k :: 0 <= j < k < |view| ==> view[j].id != view[k].id)
    && (forall k :: 0 <= k < |view| ==> Distinct(view[k].models))
  }

  lemma NoDuplicatesCons(p: Provider, view: seq<Provider>)
    requires NoDuplicates(view) && Distinct(p.models) && forall k :: 0 <= k < |view| ==> view[k].id != p.id
    ensures NoDuplicates([p] + view)
  {
  }

  lemma {:induction false} PublishedOnce(rules: map<Id, Rule>, order: seq<Id>)
    requires Distinct(order) && forall p :: p in order ==> p in rules
    ensures NoDuplicates(Published(rules, order))
    ensures forall k :: 0 <= k < |Published(rules, order)| ==> Published(rules, order)[k].id in order
  {
    hide NoDuplicates, ValidModels, Distinct;
    if order == [] {
      NothingTwice();
    } else {
      HeadDiffers(order);
      PublishedOnce(rules, order[1..]);
      ModelsListedOnce(rules[order[0]]);
      var rest := Published(rules, order[1..]);
      var first := Provider(order[0], ValidModels(rules[order[0]]));
      assert [] + rest == rest;
      NoDuplicatesCons(first, rest);
    }
  }

  lemma NothingTwice()
    ensures NoDuplicates([])
  {
  }

  lemma ModelsListedOnce(rule: Rule)
    ensures Distinct(ValidModels(rule))
    ensures forall m :: m in ValidModels(rule) <==>
      m in rule.executable && (m in rule.builtinModels || m in rule.personalModels)
  {
    hide ResolveOwnedOrder;
    var builtin := UniqueInOrder(rule.builtinModels);
    var personal := Except(UniqueInOrder(rule.personalModels), Members(builtin));
    OrderLists(builtin, personal, rule.modelOrder);
    OnlyIsDistinct(ModelOrder(rule), rule.executable);
  }

  /** What the resolver publishes never makes the registry refuse. */
  lemma ResolvedOnce(x: Input)
    requires WellFormed(x)
    ensures (forall p :: p in ProviderOrder(x) ==> p in x.rules) && NoDuplicates(Resolved(x))
  {
    ProviderOrderLists(x);
    PublishedOnce(x.rules, ProviderOrder(x));
  }

  method Resolve(x: Input) returns (view: seq<Provider>)
    requires WellFormed(x)
    ensures (forall p :: p in ProviderOrder(x) ==> p in x.rules) && view == Resolved(x) && NoDuplicates(view)
  {
    hide ValidModels, ProviderOrder, NoDuplicates, Published, WellFormed, Lists, Distinct, Except, Only, UniqueFrom;
    ResolvedOnce(x);
    var order := ProviderOrder(x);
    assert order[0..] == order;
    view := [];
    var k := 0;
    while k < |order|
      invariant k <= |order|
      invariant view + Published(x.rules, order[k..]) == Resolved(x)
    {
      PublishedNext(x.rules, order, k, view);
      var rule := x.rules[order[k]];
      var models := ValidModels(rule);
      if rule.complete && models != [] {
        view := view + [Provider(order[k], models)];
      }
      k := k + 1;
    }
    assert order[k..] == [];
    PublishedNothing(x.rules);
  }

  lemma PublishedNothing(rules: map<Id, Rule>)
    ensures Published(rules, []) == []
  {
  }

  lemma PublishedNext(rules: map<Id, Rule>, order: seq<Id>, k: nat, view: seq<Provider>)
    requires k < |order| && forall p :: p in order ==> p in rules
    ensures var rule := rules[order[k]];
      var here := if rule.complete && ValidModels(rule) != [] then [Provider(order[k], ValidModels(rule))] else [];
      view + Published(rules, order[k..]) == (view + here) + Published(rules, order[k + 1..])
  {
    hide ValidModels;
    assert order[k..][1..] == order[k + 1..];
  }

  /** The provider with an id, by going through the view. */
  function Scan(view: seq<Provider>, id: Id): Option<Provider> {
    if view == [] then None else if view[0].id == id then Some(view[0]) else Scan(view[1..], id)
  }

  function ScanModel(view: seq<Provider>, id: Id, model: Id): bool {
    Scan(view, id).Some? && model in Scan(view, id).value.models
  }

  lemma {:induction false} ScanFinds(view: seq<Provider>, k: nat)
    requires NoDuplicates(view) && k < |view|
    ensures Scan(view, view[k].id) == Some(view[k])
  {
    if k > 0 {
      assert view[0].id != view[k].id;
      assert NoDuplicates(view[1..]);
      ScanFinds(view[1..], k - 1);
    }
  }

  lemma {:induction false} ScanMisses(view: seq<Provider>, id: Id)
    requires forall k :: 0 <= k < |view| ==> view[k].id != id
    ensures Scan(view, id).None?
  {
    if view != [] { ScanMisses(view[1..], id); }
  }

  class Registry {
    var view: seq<Provider>
    var revision: nat
    var providerById: map<Id, Provider>
    var modelsByProvider: map<Id, set<Id>>

    constructor ()
      ensures view == [] && revision == 0 && Indexed()
    {
      view, revision, providerById, modelsByProvider := [], 0, map[], map[];
    }

    /** Looking up in the indexes is the same as going through the view. */
    ghost predicate Indexed()
      reads this
    {
      && (forall id :: (if id in providerById then Some(providerById[id]) else None) == Scan(view, id))
      && (forall id, m :: (id in modelsByProvider && m in modelsByProvider[id]) <==> ScanModel(view, id, m))
    }

    method GetProvider(id: Id) returns (r: Option<Provider>)
      requires Indexed()
      ensures r == Scan(view, id)
    {
      r := if id in providerById then Some(providerById[id]) else None;
    }

    method HasModel(id: Id, model: Id) returns (r: bool)
      requires Indexed()
      ensures r == ScanModel(view, id, model)
    {
      r := id in modelsByProvider && model in modelsByProvider[id];
    }

    /** The view is replaced before the indexes are built; a duplicate makes that fail and leaves the old indexes. */
    method ReplaceView(providers: seq<Provider>) returns (accepted: bool)
      modifies this
      ensures view == providers && revision == old(revision) + 1
      ensures accepted <==> NoDuplicates(providers)
      ensures accepted ==> Indexed()
      ensures !accepted ==> providerById == old(providerById) && modelsByProvider == old(modelsByProvider)
    {
      view, revision := providers, revision + 1;
      accepted := RebuildIndexes();
    }

    /** What the resolver publishes is never refused, and looking it up is the same as going through it. */
    method ReplaceResolved(x: Input)
      requires WellFormed(x)
      modifies this
      ensures forall p :: p in ProviderOrder(x) ==> p in x.rules
      ensures view == Resolved(x) && revision == old(revision) + 1 && Indexed()
    {
      hide WellFormed, NoDuplicates, Published, ProviderOrder, Scan;
      var published := Resolve(x);
      var accepted := ReplaceView(published);
      assert accepted;
    }

    method RebuildIndexes() returns (accepted: bool)
      modifies `providerById, `modelsByProvider
      ensures accepted <==> NoDuplicates(view)
      ensures accepted ==> Indexed()
      ensures !accepted ==> providerById == old(providerById) && modelsByProvider == old(modelsByProvider)
    {
      hide NoDuplicates, Scan, Distinct;
      var byId: map<Id, Provider> := map[];
      var models: map<Id, set<Id>> := map[];
      var k := 0;
      NothingTwice();
      while k < |view|
        invariant k <= |view| && NoDuplicates(view[..k]) && IndexesFirst(view, k, byId, models)
        invariant providerById == old(providerById) && modelsByProvider == old(modelsByProvider)
      {
        var provider := view[k];
        if provider.id in byId {
          Duplicated(view, k);
          return false;
        }
        var unique := UniqueModels(provider.models);
        if !unique {
          Duplicated(view, k);
          return false;
        }
        NoDuplicatesNext(view, k);
        byId := byId[provider.id := provider];
        models := models[provider.id := Members(provider.models)];
        k := k + 1;
      }
      assert view[..k] == view;
      IndexAgrees(view, byId, models);
      providerById, modelsByProvider := byId, models;
      return true;
    }
  }

  /** The maps index the first `k` providers. */
  ghost predicate IndexesFirst(view: seq<Provider>, k: nat, byId: map<Id, Provider>, models: map<Id, set<Id>>)
    requires k <= |view|
  {
    && models.Keys == byId.Keys
    && (forall id :: id in byId ==> exists j :: 0 <= j < k && view[j].id == id)
    && forall j :: 0 <= j < k ==>
         view[j].id in byId && byId[view[j].id] == view[j] && models[view[j].id] == Members(view[j].models)
  }

  lemma Duplicated(view: seq<Provider>, k: nat)
    requires k < |view| && ((exists j :: 0 <= j < k && view[j].id == view[k].id) || !Distinct(view[k].models))
    ensures !NoDuplicates(view)
  {
  }

  lemma NoDuplicatesNext(view: seq<Provider>, k: nat)
    requires k < |view| && NoDuplicates(view[..k]) && Distinct(view[k].models)
    requires forall j :: 0 <= j < k ==> view[j].id != view[k].id
    ensures NoDuplicates(view[..k + 1])
  {
    var before, after := view[..k], view[..k + 1];
    forall i, j | 0 <= i < j < |after| ensures after[i].id != after[j].id {
      if j < k { assert before[i].id != before[j].id; }
    }
    forall j | 0 <= j < |after| ensures Distinct(after[j].models) {
      if j < k { assert Distinct(before[j].models); }
    }
  }

  method UniqueModels(models: seq<Id>) returns (unique: bool)
    ensures unique <==> Distinct(models)
  {
    var seen: set<Id> := {};
    for k := 0 to |models|
      invariant seen == Members(models[..k]) && Distinct(models[..k])
    {
      if models[k] in seen {
        assert exists j :: 0 <= j < k && models[j] == models[k];
        return false;
      }
      seen := seen + {models[k]};
      assert models[..k + 1] == models[..k] + [models[k]];
    }
    assert models[..|models|] == models;
    return true;
  }

  lemma IndexAgrees(view: seq<Provider>, byId: map<Id, Provider>, models: map<Id, set<Id>>)
    requires NoDuplicates(view) && IndexesFirst(view, |view|, byId, models)
    ensures forall id :: (if id in byId then Some(byId[id]) else None) == Scan(view, id)
    ensures forall id, m :: (id in models && m in models[id]) <==> ScanModel(view, id, m)
  {
    forall id ensures (if id in byId then Some(byId[id]) else None) == Scan(view, id) {
      if id in byId {
        var j :| 0 <= j < |view| && view[j].id == id;
        ScanFinds(view, j);
      } else {
        ScanMisses(view, id);
      }
    }
    forall id, m ensures (id in models && m in models[id]) <==> ScanModel(view, id, m) {
      assert (if id in byId then Some(byId[id]) else None) == Scan(view, id);
      if id in byId {
        var j :| 0 <= j < |view| && view[j].id == id;
        assert models[view[j].id] == Members(view[j].models);
      }
    }
  }

  // What is published, and in which order

  /** A provider is published exactly when it is complete and has a model that can be executed, with all of these. */
  lemma {:induction false} PublishedExactlyWhen(rules: map<Id, Rule>, order: seq<Id>, p: Provider)
    requires forall q :: q in order ==> q in rules
    ensures p in Published(rules, order) <==>
      p.id in order && rules[p.id].complete && p.models != [] && p.models == ValidModels(rules[p.id])
  {
    if order != [] {
      hide ValidModels;
      PublishedExactlyWhen(rules, order[1..], p);
      var rest := Published(rules, order[1..]);
      assert [] + rest == rest;
    }
  }

  /** For a whole input: exactly the effective providers that are complete and have an executable model. */
  lemma ResolvedExactlyWhen(x: Input, id: Id)
    requires WellFormed(x)
    ensures (forall p :: p in ProviderOrder(x) ==> p in x.rules)
    ensures (exists p :: p in Resolved(x) && p.id == id) <==>
      && id in x.effectiveKeys && x.rules[id].complete
      && exists m :: m in x.rules[id].executable && (m in x.rules[id].builtinModels || m in x.rules[id].personalModels)
  {
    hide ProviderOrder, ValidModels, Published;
    ProviderOrderLists(x);
    if id in x.effectiveKeys {
      var p := Provider(id, ValidModels(x.rules[id]));
      PublishedExactlyWhen(x.rules, ProviderOrder(x), p);
      ModelsListedOnce(x.rules[id]);
      if m :| m in x.rules[id].executable && (m in x.rules[id].builtinModels || m in x.rules[id].personalModels) {
        assert m in ValidModels(x.rules[id]);
      }
      if p.models != [] { assert p.models[0] in ValidModels(x.rules[id]); }
    }
    if q :| q in Resolved(x) && q.id == id {
      PublishedExactlyWhen(x.rules, ProviderOrder(x), q);
    }
  }

  /** The built-in families come first; the others follow in the order asked for. */
  lemma ProvidersRespect(x: Input, p: Id, q: Id)
    requires WellFormed(x) && p in x.effectiveKeys && q in x.effectiveKeys && p != q
    requires || (p in x.family && q !in x.family)
             || (p in x.family && q in x.family && Precedes(x.effectiveKeys, p, q))
             || (p !in x.family && q !in x.family && Precedes(x.requested, p, q))
    ensures Precedes(ProviderOrder(x), p, q)
  {
    hide ResolveOwnedOrder, Precedes, Distinct;
    var familyIds := Only(x.effectiveKeys, x.family);
    var builtinIds := Except(x.builtinKeys, Members(familyIds));
    var personalIds := Except(Except(x.personalKeys, Members(builtinIds)), Members(familyIds));
    OrderLists(builtinIds, personalIds, x.requested);
    if p in x.family && q in x.family {
      OnlyPrecedes(x.effectiveKeys, x.family, p, q);
    } else if p !in x.family {
      OrderRespects(builtinIds, personalIds, x.requested, p, q);
    }
    hide Only, Except;
    TogetherPrecedes(familyIds, ResolveOwnedOrder(builtinIds, personalIds, x.requested), p, q);
  }

  lemma TogetherPrecedes(a: seq<Id>, b: seq<Id>, p: Id, q: Id)
    requires Precedes(a, p, q) || (q !in a && q in b && (p in a || Precedes(b, p, q)))
    ensures Precedes(a + b, p, q)
  {
    if Precedes(a, p, q) {
      JoinedPrecedes([], a, b, p, q);
      assert [] + a + b == a + b;
    } else {
      JoinedPrecedes(a, b, [], p, q);
      assert a + b + [] == a + b;
    }
  }

  /** Published models keep the order asked for. */
  lemma ModelsRespect(rule: Rule, m: Id, n: Id)
    requires m != n && Precedes(rule.modelOrder, m, n) && m in ValidModels(rule) && n in ValidModels(rule)
    ensures Precedes(ValidModels(rule), m, n)
  {
    hide ResolveOwnedOrder;
    var builtin := UniqueInOrder(rule.builtinModels);
    var personal := Except(UniqueInOrder(rule.personalModels), Members(builtin));
    ModelsListedOnce(rule);
    OrderRespects(builtin, personal, rule.modelOrder, m, n);
    OnlyPrecedes(ModelOrder(rule), rule.executable, m, n);
  }
}
