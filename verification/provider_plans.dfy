/** The providers-and-plans editor (`ProviderPlans`): the provider list with
    its expand/collapse flags, and the dialog that edits one provider and its
    plan list, remembering which saved plans to delete. */
module ProviderPlans {
  import opened Util
  import Catalog
  import Flags

  /** One row of the dialog's plan list. Rows copied from a saved plan carry
      its id; rows added in the dialog have none. */
  datatype PlanForm = PlanForm(id: Option<int>, name: string, duration: string, amount: string, costPrice: string)

  datatype ProviderForm = ProviderForm(name: string, status: string)

  /** The fields a plan row's inputs edit, and the provider's two fields. */
  datatype PlanField = PlanName | Duration | Amount | CostPrice
  datatype ProviderField = ProviderName | Status

  const BlankPlan := PlanForm(None, "", "", "", "")
  const NewProvider := ProviderForm("", "active")

  /** A saved plan as the dialog shows it: `cost_price || ''`. */
  function FormOf(plan: Catalog.Plan): (f: PlanForm)
    ensures f.id == Some(plan.id)
    ensures f.name == plan.name && f.duration == plan.duration && f.amount == plan.amount
    ensures f.costPrice == if plan.costPrice.Some? then plan.costPrice.value else ""
  {
    PlanForm(Some(plan.id), plan.name, plan.duration, plan.amount,
             if plan.costPrice.Some? then plan.costPrice.value else "")
  }

  function FormsOf(plans: seq<Catalog.Plan>): (forms: seq<PlanForm>)
    ensures |forms| == |plans|
    ensures forall i :: 0 <= i < |plans| ==> forms[i] == FormOf(plans[i])
  {
    seq(|plans|, i requires 0 <= i < |plans| => FormOf(plans[i]))
  }

  function FieldOf(p: PlanForm, field: PlanField): string {
    match field
    case PlanName => p.name
    case Duration => p.duration
    case Amount => p.amount
    case CostPrice => p.costPrice
  }

  /** `{ ...plan, [field]: value }` */
  function WithField(p: PlanForm, field: PlanField, value: string): (q: PlanForm)
    ensures FieldOf(q, field) == value
    ensures forall other :: other != field ==> FieldOf(q, other) == FieldOf(p, other)
    ensures q.id == p.id
  {
    match field
    case PlanName => p.(name := value)
    case Duration => p.(duration := value)
    case Amount => p.(amount := value)
    case CostPrice => p.(costPrice := value)
  }

  /** Writing a field's own value back changes nothing, and writing the same
      field twice keeps the later value only. */
  lemma {:induction false} WithFieldLaws(p: PlanForm, field: PlanField, v: string, w: string)
    ensures WithField(p, field, FieldOf(p, field)) == p
    ensures WithField(WithField(p, field, v), field, w) == WithField(p, field, w)
  {
    match field {
      case PlanName =>
      case Duration =>
      case Amount =>
      case CostPrice =>
    }
  }

  /** The delete button of a row shows only while the list has more than one row. */
  predicate DeleteShown(plans: seq<PlanForm>) {
    |plans| > 1
  }

  /** The body of the save request, and where it goes: a PUT to the edited
      provider's id, or a POST for a new one. */
  datatype SavePayload = SavePayload(provider: ProviderForm, plans: seq<PlanForm>, plansToDelete: Option<seq<int>>)
  datatype SaveTarget = Put(providerId: int) | Post
  datatype SaveRequest = SaveRequest(target: SaveTarget, payload: SavePayload)

  /** `handleSubmit`'s request: `plans_to_delete` rides along exactly when a
      saved provider is edited and some plan was removed. */
  function Payload(editing: Option<Catalog.Provider>, provider: ProviderForm, plans: seq<PlanForm>,
                   plansToDelete: seq<int>): (r: SaveRequest)
    ensures r.payload.provider == provider && r.payload.plans == plans
    ensures r.payload.plansToDelete.Some? <==> editing.Some? && plansToDelete != []
    ensures r.payload.plansToDelete.Some? ==> r.payload.plansToDelete.value == plansToDelete
    ensures r.target == if editing.Some? then Put(editing.value.id) else Post
  {
    var toDelete := if editing.Some? && |plansToDelete| > 0 then Some(plansToDelete) else None;
    SaveRequest(if editing.Some? then Put(editing.value.id) else Post,
                SavePayload(provider, plans, toDelete))
  }

  /** A new provider never asks the server to delete plans, whatever the
      dialog recorded. */
  lemma NewProviderDeletesNothing(provider: ProviderForm, plans: seq<PlanForm>, plansToDelete: seq<int>)
    ensures Payload(None, provider, plans, plansToDelete).payload.plansToDelete.None?
    ensures Payload(None, provider, plans, plansToDelete).target == Post
  {
  }

  const TokenMissingMessage := "Authentication token not found"
  const LoadFailedMessage := "Failed to load providers data"
  const UpdatedMessage := "Provider updated successfully!"
  const CreatedMessage := "Provider created successfully!"
  const UpdateFailedMessage := "Failed to update provider"
  const CreateFailedMessage := "Failed to create provider"

  /** The answer to the provider-list request. */
  datatype ListReply = ListAnswered(success: bool, data: seq<Catalog.Provider>) | ListFailed(serverError: Option<string>)

  /** The answer to the save request: `success` and the server's `message`. */
  datatype SaveReply = Saved(success: bool, message: Option<string>) | SaveFailed(serverError: Option<string>)

  /** The forEach that builds the expanded-state map after a fetch: every
      listed provider's id, and nothing else, collapsed. */
  method CollapsedState(providers: seq<Catalog.Provider>) returns (m: map<int, bool>)
    ensures forall i :: 0 <= i < |providers| ==> providers[i].id in m
    ensures forall id :: id in m ==> !m[id] && exists i :: 0 <= i < |providers| && providers[i].id == id
  {
    m := map[];
    var n := 0;
    while n < |providers|
      invariant 0 <= n <= |providers|
      invariant forall i :: 0 <= i < n ==> providers[i].id in m
      invariant forall id :: id in m ==> !m[id] && exists i :: 0 <= i < n && providers[i].id == id
    {
      m := m[providers[n].id := false];
      n := n + 1;
    }
  }

  class PlanEditor {
    var providers: seq<Catalog.Provider>
    var expanded: map<int, bool>
    var editingProvider: Option<Catalog.Provider>
    var provider: ProviderForm
    var plans: seq<PlanForm>
    var plansToDelete: seq<int>
    var dialogOpen: bool
    var error: string
    var success: string

    constructor ()
      ensures providers == [] && expanded == map[] && editingProvider == None
      ensures provider == NewProvider && plans == [BlankPlan] && plansToDelete == []
      ensures !dialogOpen && error == "" && success == ""
    {
      providers, expanded, editingProvider := [], map[], None;
      provider, plans, plansToDelete := NewProvider, [BlankPlan], [];
      dialogOpen, error, success := false, "", "";
    }

    /** `fetchProviders`: without a truthy token, report it and send
        nothing; otherwise clear the error and, on success, take the list and
        collapse every provider. */
    method FetchProviders(token: Option<string>, reply: ListReply) returns (sent: bool)
      modifies this
      ensures sent <==> token.Some? && token.value != ""
      ensures !sent ==> error == TokenMissingMessage && providers == old(providers) && expanded == old(expanded)
      ensures sent && reply.ListAnswered? && reply.success ==>
        providers == reply.data && error == "" &&
        (forall id :: id in expanded <==> exists i :: 0 <= i < |providers| && providers[i].id == id) &&
        (forall id :: !Flags.IsOn(expanded, id))
      ensures sent && reply.ListAnswered? && !reply.success ==>
        providers == old(providers) && expanded == old(expanded) && error == ""
      ensures sent && reply.ListFailed? ==>
        providers == old(providers) && expanded == old(expanded) && error == ErrorText(reply.serverError, LoadFailedMessage)
      ensures plans == old(plans) && plansToDelete == old(plansToDelete) && dialogOpen == old(dialogOpen)
      ensures editingProvider == old(editingProvider) && provider == old(provider) && success == old(success)
    {
      error := "";
      if token.None? || token.value == "" {
        error := TokenMissingMessage;
        sent := false;
        return;
      }
      sent := true;
      match reply {
        case ListAnswered(ok, data) =>
          if ok {
            providers := data;
            expanded := CollapsedState(data);
          }
        case ListFailed(serverError) =>
          error := ErrorText(serverError, LoadFailedMessage);
      }
    }

    /** `handleToggleExpand(providerId)` */
    method HandleToggleExpand(providerId: int)
      modifies this
      ensures expanded == Flags.Toggle(old(expanded), providerId)
      ensures Flags.IsOn(expanded, providerId) == !Flags.IsOn(old(expanded), providerId)
      ensures forall id :: id != providerId ==> Flags.IsOn(expanded, id) == Flags.IsOn(old(expanded), id)
      ensures providers == old(providers) && plans == old(plans) && plansToDelete == old(plansToDelete)
      ensures editingProvider == old(editingProvider) && dialogOpen == old(dialogOpen)
      ensures provider == old(provider) && error == old(error) && success == old(success)
    {
      expanded := Flags.Toggle(expanded, providerId);
    }

    /** `handleOpenDialog(provider)`: editing copies the provider's name,
        status and plans; creating starts from an active, unnamed provider
        with one blank plan. Either way nothing is marked for deletion. */
    method HandleOpenDialog(chosen: Option<Catalog.Provider>)
      modifies this
      ensures editingProvider == chosen && dialogOpen && plansToDelete == []
      ensures chosen.Some? ==>
        provider == ProviderForm(chosen.value.name, chosen.value.status) &&
        plans == FormsOf(chosen.value.plans)
      ensures chosen.None? ==> provider == NewProvider && plans == [BlankPlan]
      ensures providers == old(providers) && expanded == old(expanded)
      ensures error == old(error) && success == old(success)
    {
      if chosen.Some? {
        editingProvider := chosen;
        provider := ProviderForm(chosen.value.name, chosen.value.status);
        plans := FormsOf(chosen.value.plans);
      } else {
        editingProvider := None;
        provider := NewProvider;
        plans := [BlankPlan];
      }
      plansToDelete := [];
      dialogOpen := true;
    }

    /** `handleCloseDialog` */
    method HandleCloseDialog()
      modifies this
      ensures !dialogOpen && editingProvider == None && error == "" && success == ""
      ensures provider == old(provider) && plans == old(plans) && plansToDelete == old(plansToDelete)
      ensures providers == old(providers) && expanded == old(expanded)
    {
      dialogOpen := false;
      editingProvider := None;
      error := "";
      success := "";
    }

    /** `handleProviderChange(field, value)`: one field of the provider form. */
    method HandleProviderChange(field: ProviderField, value: string)
      modifies this
      ensures field == ProviderName ==> provider == old(provider).(name := value)
      ensures field == Status ==> provider == old(provider).(status := value)
      ensures plans == old(plans) && plansToDelete == old(plansToDelete) && editingProvider == old(editingProvider)
      ensures dialogOpen == old(dialogOpen) && providers == old(providers) && expanded == old(expanded)
      ensures error == old(error) && success == old(success)
    {
      match field {
        case ProviderName => provider := provider.(name := value);
        case Status => provider := provider.(status := value);
      }
    }

    /** `handlePlanChange(index, field, value)`: one field of one row; every
        other row and every other field of that row stay as they were. */
    method HandlePlanChange(index: nat, field: PlanField, value: string)
      requires index < |plans|
      modifies this
      ensures |plans| == old(|plans|)
      ensures FieldOf(plans[index], field) == value && plans[index].id == old(plans[index].id)
      ensures forall other :: other != field ==> FieldOf(plans[index], other) == FieldOf(old(plans[index]), other)
      ensures forall i :: 0 <= i < |plans| && i != index ==> plans[i] == old(plans[i])
      ensures provider == old(provider) && plansToDelete == old(plansToDelete) && editingProvider == old(editingProvider)
      ensures dialogOpen == old(dialogOpen) && providers == old(providers) && expanded == old(expanded)
      ensures error == old(error) && success == old(success)
    {
      var updatedPlans := plans;
      updatedPlans := updatedPlans[index := WithField(updatedPlans[index], field, value)];
      plans := updatedPlans;
    }

    /** `addNewPlan`: one blank row at the end. */
    method AddNewPlan()
      modifies this
      ensures plans == old(plans) + [BlankPlan]
      ensures provider == old(provider) && plansToDelete == old(plansToDelete) && editingProvider == old(editingProvider)
      ensures dialogOpen == old(dialogOpen) && providers == old(providers) && expanded == old(expanded)
      ensures error == old(error) && success == old(success)
    {
      plans := plans + [BlankPlan];
    }

    /** `removePlan(index, planId)`: drop the row at `index`, keeping the
        others in order, and remember its id for deletion when it has a
        truthy one. */
    method RemovePlan(index: nat, planId: Option<int>)
      requires index < |plans|
      modifies this
      ensures plans == old(plans)[..index] + old(plans)[index + 1..]
      ensures plansToDelete == old(plansToDelete) + (if Picked(planId) then [planId.value] else [])
      ensures old(DeleteShown(plans)) ==> |plans| >= 1
      ensures provider == old(provider) && editingProvider == old(editingProvider)
      ensures dialogOpen == old(dialogOpen) && providers == old(providers) && expanded == old(expanded)
      ensures error == old(error) && success == old(success)
    {
      if Picked(planId) {
        plansToDelete := plansToDelete + [planId.value];
      }
      var updatedPlans := plans;
      updatedPlans := updatedPlans[..index] + updatedPlans[index + 1..];
      plans := updatedPlans;
    }

    /** `handleSubmit`: clear both messages, send the save request, and on
        success show the server's message (or the page's own) and reload
        the list; the dialog closes on a timer afterwards. */
    method HandleSubmit(reply: SaveReply) returns (request: SaveRequest, refetch: bool)
      modifies this
      ensures request == Payload(editingProvider, provider, plans, plansToDelete)
      ensures refetch <==> reply.Saved? && reply.success
      ensures refetch ==> error == ""
      ensures refetch ==>
        success == (if reply.message.Some? && reply.message.value != "" then reply.message.value
                    else if editingProvider.Some? then UpdatedMessage else CreatedMessage)
      ensures reply.Saved? && !reply.success ==> error == "" && success == ""
      ensures reply.SaveFailed? ==> success == ""
      ensures reply.SaveFailed? ==>
        error == ErrorText(reply.serverError, if editingProvider.Some? then UpdateFailedMessage else CreateFailedMessage)
      ensures provider == old(provider) && plans == old(plans) && plansToDelete == old(plansToDelete)
      ensures editingProvider == old(editingProvider) && dialogOpen == old(dialogOpen)
      ensures providers == old(providers) && expanded == old(expanded)
    {
      error := "";
      success := "";
      request := Payload(editingProvider, provider, plans, plansToDelete);
      refetch := false;
      match reply {
        case Saved(ok, message) =>
          if ok {
            success := if message.Some? && message.value != "" then message.value
                       else if editingProvider.Some? then UpdatedMessage else CreatedMessage;
            refetch := true;
          }
        case SaveFailed(serverError) =>
          error := ErrorText(serverError, if editingProvider.Some? then UpdateFailedMessage else CreateFailedMessage);
      }
    }
  }

  /** Removing rows through the dialog, which offers the delete button only
      while more than one row is left, never empties the list; and a removed
      saved row's id reaches the save request when the provider is an edited one. */
  method RemoveThenSave(e: PlanEditor, index: nat) returns (request: SaveRequest)
    requires e.editingProvider.Some? && DeleteShown(e.plans) && index < |e.plans|
    requires e.plans[index].id.Some? && e.plans[index].id.value != 0
    modifies e
    ensures |e.plans| >= 1
    ensures request.payload.plansToDelete == Some(old(e.plansToDelete) + [old(e.plans[index].id.value)])
  {
    e.RemovePlan(index, e.plans[index].id);
    var refetch;
    request, refetch := e.HandleSubmit(Saved(false, None));
  }
}
