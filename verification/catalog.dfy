/** The provider and plan records the key pages receive from the backend, and
    the `getPlansForProvider` lookup that the upload and generate pages share. */
module Catalog {
  import opened Util

  /** A plan as the backend sends it; the text fields are kept as the form
      shows them, and `cost_price` may be missing. */
  datatype Plan = Plan(id: int, name: string, duration: string, amount: string, costPrice: Option<string>)

  datatype Provider = Provider(id: int, name: string, status: string, plans: seq<Plan>)

  /** `providers.find(p => p.id === id)`, as an index from `from` on: the first
      provider at or after `from` with that id, or -1. */
  function ProviderIndex(providers: seq<Provider>, id: int, from: nat): (r: int)
    requires from <= |providers|
    ensures r == -1 || from <= r < |providers|
    ensures r == -1 <==> forall j :: from <= j < |providers| ==> providers[j].id != id
    ensures r != -1 ==> providers[r].id == id && forall j :: from <= j < r ==> providers[j].id != id
    decreases |providers| - from
  {
    if from == |providers| then -1
    else if providers[from].id == id then from
    else ProviderIndex(providers, id, from + 1)
  }

  /** `plans.find(p => p.id === id)`: the first plan with that id, if any. */
  function FindPlan(plans: seq<Plan>, id: int): (r: Option<Plan>)
    ensures r.None? <==> forall j :: 0 <= j < |plans| ==> plans[j].id != id
    ensures r.Some? ==> r.value.id == id && r.value in plans
    ensures r.Some? ==> exists k :: 0 <= k < |plans| && plans[k] == r.value &&
                                    forall j :: 0 <= j < k ==> plans[j].id != id
  {
    if plans == [] then None
    else if plans[0].id == id then Some(plans[0])
    else FindPlan(plans[1..], id)
  }

  /** `getPlansForProvider()`: nothing while no provider is picked or when the
      picked id is not in the list, and otherwise the plans of the first
      provider with that id. */
  function PlansForProvider(providers: seq<Provider>, selected: Option<int>): (r: seq<Plan>)
    ensures !Picked(selected) ==> r == []
    ensures Picked(selected) && (forall j :: 0 <= j < |providers| ==> providers[j].id != selected.value) ==> r == []
    ensures Picked(selected) && ProviderIndex(providers, selected.value, 0) != -1 ==>
      r == providers[ProviderIndex(providers, selected.value, 0)].plans
  {
    if !Picked(selected) then []
    else
      var i := ProviderIndex(providers, selected.value, 0);
      if i == -1 then [] else providers[i].plans
  }

  /** Every plan offered for a provider belongs to a provider with the picked id. */
  lemma {:induction false} OfferedPlansBelongToPicked(providers: seq<Provider>, selected: Option<int>, p: Plan)
    requires p in PlansForProvider(providers, selected)
    ensures Picked(selected)
    ensures exists j :: 0 <= j < |providers| && providers[j].id == selected.value && p in providers[j].plans
  {
    var i := ProviderIndex(providers, selected.value, 0);
    assert providers[i].id == selected.value && p in providers[i].plans;
  }
}
