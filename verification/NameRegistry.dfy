/** Two registries keyed by name, in which the first deployment under a name stays: rate models under
    their names, and vTokens, each with its rate model, under their symbols. */
module NameRegistry {

  /// One market to deploy: the name and the arguments of its rate model, and its own symbol.
  datatype Item<M> = Item(name: string, symbol: string, model: M)

  datatype Registry<M> = Registry(rateModels: map<string, M>, vTokens: map<string, M>)

  /// A deployment that is skipped when there is one of that name.
  function DeployOnce<M>(deployed: map<string, M>, name: string, model: M): map<string, M> {
    if name in deployed then deployed else deployed[name := model]
  }

  function DeployItem<M>(r: Registry<M>, item: Item<M>): Registry<M> {
    var rateModels := DeployOnce(r.rateModels, item.name, item.model);
    Registry(rateModels, DeployOnce(r.vTokens, item.symbol, rateModels[item.name]))
  }

  function DeployItems<M>(r: Registry<M>, items: seq<Item<M>>): Registry<M>
    decreases |items|
  {
    if |items| == 0 then r else DeployItems(DeployItem(r, items[0]), items[1..])
  }

  /// A rate model in the registry was there before, or is the one of some item of that name.
  ghost predicate Traced<M>(r: Registry<M>, items: seq<Item<M>>, after: Registry<M>) {
    && (forall n :: n in r.rateModels ==> n in after.rateModels && after.rateModels[n] == r.rateModels[n])
    && (forall n :: n in after.rateModels && n !in r.rateModels ==>
          exists j :: 0 <= j < |items| && items[j].name == n && after.rateModels[n] == items[j].model)
    && (forall i :: 0 <= i < |items| ==> items[i].name in after.rateModels)
  }

  lemma {:induction false} ItemsTraced<M>(r: Registry<M>, items: seq<Item<M>>)
    ensures Traced(r, items, DeployItems(r, items))
    decreases |items|
  {
    if |items| > 0 {
      var r1, after, rest := DeployItem(r, items[0]), DeployItems(r, items), items[1..];
      ItemsTraced(r1, rest);
      forall n | n in after.rateModels && n !in r.rateModels
        ensures exists j :: 0 <= j < |items| && items[j].name == n && after.rateModels[n] == items[j].model
      {
        if n in r1.rateModels {
          assert items[0].name == n && after.rateModels[n] == items[0].model;
        } else {
          var j :| 0 <= j < |rest| && rest[j].name == n && after.rateModels[n] == rest[j].model;
          assert items[j + 1] == rest[j];
        }
      }
      forall i | 0 <= i < |items|
        ensures items[i].name in after.rateModels
      {
        if i > 0 {
          assert items[i] == rest[i - 1];
        }
      }
    }
  }

  /// The symbols are new, and no two are the same.
  predicate FreshSymbols<M>(r: Registry<M>, items: seq<Item<M>>) {
    && (forall i :: 0 <= i < |items| ==> items[i].symbol !in r.vTokens)
    && forall i, j :: 0 <= i < j < |items| ==> items[i].symbol != items[j].symbol
  }

  lemma {:induction false} VTokensStay<M>(r: Registry<M>, items: seq<Item<M>>, s: string)
    requires s in r.vTokens
    ensures s in DeployItems(r, items).vTokens && DeployItems(r, items).vTokens[s] == r.vTokens[s]
    decreases |items|
  {
    if |items| > 0 {
      VTokensStay(DeployItem(r, items[0]), items[1..], s);
    }
  }

  /// A vToken that was not there before is some item's.
  lemma {:induction false} VTokenFromItem<M>(r: Registry<M>, items: seq<Item<M>>, s: string)
    requires s in DeployItems(r, items).vTokens && s !in r.vTokens
    ensures exists i :: 0 <= i < |items| && items[i].symbol == s
    decreases |items|
  {
    if |items| > 0 {
      var r1, rest := DeployItem(r, items[0]), items[1..];
      if s in r1.vTokens {
        assert items[0].symbol == s;
      } else {
        VTokenFromItem(r1, rest, s);
        var i :| 0 <= i < |rest| && rest[i].symbol == s;
        assert items[i + 1].symbol == s;
      }
    }
  }

  /// Each new vToken uses the rate model registered under its item's name.
  lemma {:induction false} VTokensUseNamed<M>(r: Registry<M>, items: seq<Item<M>>, i: nat)
    requires i < |items| && FreshSymbols(r, items)
    ensures var after := DeployItems(r, items);
      && items[i].symbol in after.vTokens && items[i].name in after.rateModels
      && after.vTokens[items[i].symbol] == after.rateModels[items[i].name]
    decreases |items|
  {
    var r1, rest := DeployItem(r, items[0]), items[1..];
    ItemsTraced(r1, rest);
    if i == 0 {
      VTokensStay(r1, rest, items[0].symbol);
    } else {
      assert items[i] == rest[i - 1];
      VTokensUseNamed(r1, rest, i - 1);
    }
  }

  /// The names tell the models apart, and from those deployed earlier.
  ghost predicate NamesSeparate<M>(r: Registry<M>, items: seq<Item<M>>) {
    && (forall i :: 0 <= i < |items| && items[i].name in r.rateModels ==> r.rateModels[items[i].name] == items[i].model)
    && (forall i, j :: 0 <= i < |items| && 0 <= j < |items| && items[i].name == items[j].name ==>
          items[i].model == items[j].model)
  }

  ghost predicate AsConfigured<M>(items: seq<Item<M>>, after: Registry<M>) {
    forall i :: 0 <= i < |items| ==>
      items[i].symbol in after.vTokens && after.vTokens[items[i].symbol] == items[i].model
  }

  /// Reusing by name leaves every new market with exactly its configured rate model if and only if the
  /// names tell the models apart.
  lemma ReuseIsRight<M>(r: Registry<M>, items: seq<Item<M>>)
    requires FreshSymbols(r, items)
    ensures AsConfigured(items, DeployItems(r, items)) <==> NamesSeparate(r, items)
  {
    var after := DeployItems(r, items);
    ItemsTraced(r, items);
    forall i | 0 <= i < |items|
      ensures items[i].symbol in after.vTokens && items[i].name in after.rateModels
      ensures after.vTokens[items[i].symbol] == after.rateModels[items[i].name]
    {
      VTokensUseNamed(r, items, i);
    }
    if NamesSeparate(r, items) {
      forall i | 0 <= i < |items|
        ensures after.rateModels[items[i].name] == items[i].model
      {
        if items[i].name !in r.rateModels {
          var j :| 0 <= j < |items| && items[j].name == items[i].name && after.rateModels[items[i].name] == items[j].model;
        }
      }
    }
  }
}
