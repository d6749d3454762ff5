/** The bonus-claims review page (`BonusList`): the status tabs and chip
    colours, the per-claim "in progress" map, and the confirm dialog that
    approves or rejects one claim. */
module BonusList {
  import opened Util

  const StatusMap: seq<string> := ["pending", "approved", "rejected"]
  const StatusLabels: seq<string> := ["Pending", "Approved", "Rejected"]
  const StatusColors: seq<string> := ["warning", "success", "error"]

  /** `statusMap.indexOf(status)` */
  function StatusIndex(status: string): (r: int)
    ensures -1 <= r < |StatusMap|
    ensures r == -1 <==> status !in StatusMap
    ensures r != -1 ==> StatusMap[r] == status
  {
    if status == StatusMap[0] then 0
    else if status == StatusMap[1] then 1
    else if status == StatusMap[2] then 2
    else -1
  }

  /** The chip's colour: `statusColors[statusMap.indexOf(status)] || "default"`;
      index -1 reads `undefined`, which falls to "default". */
  function ChipColor(status: string): (color: string)
    ensures status in StatusMap ==> color == StatusColors[StatusIndex(status)]
    ensures color == "default" <==> status !in StatusMap
  {
    var i := StatusIndex(status);
    if i == -1 then "default" else StatusColors[i]
  }

  /** Each tab's status gets that tab's colour; any other status gets the
      default colour, which no known status has. */
  lemma ChipColorFollowsTabs(tab: nat, status: string)
    requires tab < |StatusMap|
    ensures ChipColor(StatusMap[tab]) == StatusColors[tab]
    ensures status !in StatusMap ==> ChipColor(status) == "default"
    ensures status in StatusMap ==> ChipColor(status) != "default"
  {
  }

  /** A claims request: one-based page and status. */
  datatype Fetch = Fetch(page: int, status: string)

  /** Only pending claims get the approve and reject buttons; the others
      show "Processed". */
  predicate ShowActions(status: string) {
    status == "pending"
  }

  /** A claim's entry in `processing`: absent or `false` is idle. */
  datatype Processing = Idle | Approving | Rejecting

  /** The confirm dialog's record. Closing it writes `{ open, claimId,
      action }` only, so the amount and user name are dropped too. */
  datatype ConfirmDialog = ConfirmDialog(open: bool, claimId: Option<int>, action: Option<string>,
                                         claimAmount: Option<string>, userName: Option<string>)

  const ClosedDialog := ConfirmDialog(false, None, None, None, None)

  datatype ClaimAction = Approve | Reject

  /** The approve or reject request for one claim. */
  datatype ClaimRequest = ClaimRequest(kind: ClaimAction, claimId: int)

  /** `handleConfirmAction`'s choice: approve for "approve", reject for
      "reject", nothing for anything else. */
  function ChosenAction(action: Option<string>): (r: Option<ClaimAction>)
    ensures r == Some(Approve) <==> action == Some("approve")
    ensures r == Some(Reject) <==> action == Some("reject")
    ensures r.None? <==> action != Some("approve") && action != Some("reject")
  {
    if action == Some("approve") then Some(Approve)
    else if action == Some("reject") then Some(Reject)
    else None
  }

  function SucceededMessage(kind: ClaimAction): string {
    match kind
    case Approve => "Claim approved successfully!"
    case Reject => "Claim rejected successfully!"
  }

  function FailedMessage(kind: ClaimAction): string {
    match kind
    case Approve => "Failed to approve claim"
    case Reject => "Failed to reject claim"
  }

  class BonusListPage {
    var activeTab: nat
    var page: int
    var processing: map<int, Processing>
    var confirmDialog: ConfirmDialog
    var error: string
    var success: string

    /** The tab is one of the three, and the dialog names a claim whenever
        it holds an action. */
    ghost predicate Valid()
      reads this
    {
      activeTab < |StatusMap| && (confirmDialog.action.Some? ==> confirmDialog.claimId.Some?)
    }

    constructor ()
      ensures activeTab == 0 && page == 1 && processing == map[] && confirmDialog == ClosedDialog
      ensures error == "" && success == "" && Valid()
    {
      activeTab, page, processing := 0, 1, map[];
      confirmDialog := ClosedDialog;
      error, success := "", "";
    }

    /** How claim `id` reads in `processing`. */
    function ProcessingOf(id: int): Processing
      reads this
    {
      if id in processing then processing[id] else Idle
    }

    /** A pending claim's buttons are usable unless the claim is in flight. */
    predicate ButtonsEnabled(id: int, status: string)
      reads this
    {
      ShowActions(status) && ProcessingOf(id) == Idle
    }

    /** `handleTabChange`: switch tab and ask for page 1 of its status. */
    method HandleTabChange(newValue: nat) returns (fetch: Fetch)
      requires newValue < |StatusMap|
      requires Valid()
      modifies this
      ensures activeTab == newValue && fetch == Fetch(1, StatusMap[newValue]) && Valid()
      ensures processing == old(processing) && confirmDialog == old(confirmDialog) && page == old(page)
      ensures error == old(error) && success == old(success)
    {
      activeTab := newValue;
      fetch := Fetch(1, StatusMap[newValue]);
    }

    /** `handlePageChange`: ask for that page of the active tab's status. */
    method HandlePageChange(newPage: int) returns (fetch: Fetch)
      requires Valid()
      ensures fetch == Fetch(newPage, StatusMap[activeTab])
    {
      fetch := Fetch(newPage, StatusMap[activeTab]);
    }

    /** A claims request answered: a successful answer moves to its page. */
    method FetchAnswered(fetch: Fetch, reply: Reply)
      modifies this
      ensures reply == Answered(true) ==> page == fetch.page && error == ""
      ensures reply == Answered(false) ==> page == old(page) && error == ""
      ensures reply.Failed? ==> page == old(page) && error == ErrorText(reply.serverError, "Failed to load claims")
      ensures activeTab == old(activeTab) && processing == old(processing)
      ensures confirmDialog == old(confirmDialog) && success == old(success)
    {
      error := "";
      match reply
      case Answered(ok) =>
        if ok {
          page := fetch.page;
        }
      case Failed(serverError) =>
        error := ErrorText(serverError, "Failed to load claims");
    }

    /** `openConfirmDialog` */
    method OpenConfirmDialog(claimId: int, action: string, claimAmount: string, userName: Option<string>)
      requires Valid()
      modifies this
      ensures confirmDialog == ConfirmDialog(true, Some(claimId), Some(action), Some(claimAmount), userName)
      ensures Valid()
      ensures activeTab == old(activeTab) && processing == old(processing) && page == old(page)
      ensures error == old(error) && success == old(success)
    {
      confirmDialog := ConfirmDialog(true, Some(claimId), Some(action), Some(claimAmount), userName);
    }

    /** `closeConfirmDialog` */
    method CloseConfirmDialog()
      requires Valid()
      modifies this
      ensures confirmDialog == ClosedDialog && Valid()
      ensures activeTab == old(activeTab) && processing == old(processing) && page == old(page)
      ensures error == old(error) && success == old(success)
    {
      confirmDialog := ClosedDialog;
    }

    /** `handleConfirmAction` up to the request: for "approve" or "reject",
        mark the dialog's claim as in flight and send the request; for any
        other action do nothing. */
    method BeginConfirmAction() returns (request: Option<ClaimRequest>)
      requires Valid()
      modifies this
      ensures var chosen := ChosenAction(old(confirmDialog.action));
        request == if chosen.Some? then Some(ClaimRequest(chosen.value, old(confirmDialog.claimId).value)) else None
      ensures request.None? ==> processing == old(processing)
      ensures request.Some? ==> (processing ==
        old(processing)[request.value.claimId := if request.value.kind == Approve then Approving else Rejecting])
      ensures confirmDialog == old(confirmDialog) && activeTab == old(activeTab) && page == old(page)
      ensures error == old(error) && success == old(success) && Valid()
    {
      var chosen := ChosenAction(confirmDialog.action);
      if chosen.None? {
        request := None;
        return;
      }
      var claimId := confirmDialog.claimId.value;
      processing := processing[claimId := if chosen.value == Approve then Approving else Rejecting];
      request := Some(ClaimRequest(chosen.value, claimId));
    }

    /** The rest of `handleApprove` or `handleReject` once the backend has
        answered: report the outcome, ask for the current page of the
        active tab after a success, and in every case mark the claim idle
        again and close the dialog. */
    method FinishConfirmAction(request: ClaimRequest, reply: Reply) returns (refetch: Option<Fetch>)
      requires Valid()
      modifies this
      ensures refetch == if reply == Answered(true) then Some(Fetch(old(page), StatusMap[old(activeTab)])) else None
      ensures reply == Answered(true) ==> success == SucceededMessage(request.kind) && error == old(error)
      ensures reply == Answered(false) ==> success == old(success) && error == old(error)
      ensures reply.Failed? ==> error == ErrorText(reply.serverError, FailedMessage(request.kind)) &&
                                success == old(success)
      ensures processing == old(processing)[request.claimId := Idle]
      ensures confirmDialog == ClosedDialog && Valid()
      ensures activeTab == old(activeTab) && page == old(page)
    {
      refetch := None;
      match reply {
        case Answered(ok) =>
          if ok {
            success := SucceededMessage(request.kind);
            refetch := Some(Fetch(page, StatusMap[activeTab]));
          }
        case Failed(serverError) =>
          error := ErrorText(serverError, FailedMessage(request.kind));
      }
      processing := processing[request.claimId := Idle];
      confirmDialog := ClosedDialog;
    }
  }

  /** A confirmed action disables exactly its claim's buttons while it is in
      flight, re-enables them when it finishes, and leaves every other
      claim's buttons as they were. */
  method ConfirmRoundTrip(p: BonusListPage, reply: Reply, other: int, status: string)
      returns (during: bool, after: bool, otherBefore: bool, otherAfter: bool)
    requires p.Valid() && p.confirmDialog.action == Some("approve")
    requires ShowActions(status) && p.confirmDialog.claimId != Some(other)
    modifies p
    ensures !during && after && otherAfter == otherBefore
    ensures p.confirmDialog == ClosedDialog
  {
    var id := p.confirmDialog.claimId.value;
    otherBefore := p.ButtonsEnabled(other, status);
    var request := p.BeginConfirmAction();
    during := p.ButtonsEnabled(id, status);
    var _ := p.FinishConfirmAction(request.value, reply);
    after := p.ButtonsEnabled(id, status);
    otherAfter := p.ButtonsEnabled(other, status);
  }
}
