/** The reseller's bonus page (`MyBonus`): the claim guards, the claim button
    and its request, the withdrawal status colours, and the per-user
    expand flags of the referral list. */
module MyBonus {
  import opened Util
  import Flags

  /** A JavaScript number as the page reads it from text: `NaN` or a value. */
  datatype Numeric = NaN | Num(v: real)

  /** The claim dialog's number input: its text, and the number that text
      denotes. The input only ever holds `''` or a number literal, for which
      `Number(text)` and `parseFloat(text)` agree. */
  datatype Amount = Amount(text: string, value: Numeric)

  /** `available_bonus` as the backend sends it: missing, or a text and the
      number `parseFloat` reads from it. */
  datatype Bonus = Missing | Given(text: string, parsed: Numeric)

  datatype BonusInfo = BonusInfo(availableBonus: Bonus)

  /** `parseFloat(bonusInfo?.available_bonus || 0)`: a missing record, a
      missing field and the empty text all read as 0. */
  function Available(info: Option<BonusInfo>): (r: Numeric)
    ensures info.None? ==> r == Num(0.0)
    ensures info.Some? && (info.value.availableBonus.Missing? || info.value.availableBonus.text == "") ==> r == Num(0.0)
    ensures info.Some? && info.value.availableBonus.Given? && info.value.availableBonus.text != "" ==>
      r == info.value.availableBonus.parsed
  {
    if info.None? then Num(0.0)
    else match info.value.availableBonus
      case Missing => Num(0.0)
      case Given(text, parsed) => if text == "" then Num(0.0) else parsed
  }

  const InvalidAmountMessage := "Please enter a valid amount"
  const ExceedsMessage := "Claim amount cannot exceed available bonus"
  const SubmittedMessage := "Bonus claim request submitted successfully!"
  const ClaimFailedMessage := "Failed to claim bonus"

  /** The withdrawal request's body: `{ amount: claimAmount }`, the text as typed. */
  datatype ClaimRequest = ClaimRequest(amount: string)

  /** `handleClaimBonus`'s guards: the amount must be non-empty, a number
      and positive; then it must not exceed what is available (a comparison
      with NaN is false, so it lets the claim through). */
  function CheckClaim(amount: Amount, info: Option<BonusInfo>): (r: Result<ClaimRequest, string>)
    ensures (amount.text == "" || amount.value.NaN? || amount.value.v <= 0.0) ==> r == Err(InvalidAmountMessage)
    ensures r.Ok? ==> r.value == ClaimRequest(amount.text)
    ensures r.Ok? <==>
      amount.text != "" && amount.value.Num? && amount.value.v > 0.0 &&
      !(Available(info).Num? && amount.value.v > Available(info).v)
  {
    if amount.text == "" || amount.value.NaN? || amount.value.v <= 0.0 then Err(InvalidAmountMessage)
    else if Available(info).Num? && amount.value.v > Available(info).v then Err(ExceedsMessage)
    else Ok(ClaimRequest(amount.text))
  }

  /** A claim that passes the guards is for a positive amount no larger than
      the available bonus, whenever that bonus reads as a number; without
      bonus information nothing passes. */
  lemma ClaimWithinBonus(amount: Amount, info: Option<BonusInfo>)
    requires CheckClaim(amount, info).Ok?
    ensures amount.value.Num? && 0.0 < amount.value.v
    ensures Available(info).Num? ==> amount.value.v <= Available(info).v
    ensures info.Some?
  {
  }

  /** The Claim Bonus button is disabled without bonus information or when
      `parseFloat` of the available bonus is zero or less; a missing field or
      an empty text reads as NaN, which leaves it enabled. */
  function ClaimDisabled(info: Option<BonusInfo>): (r: bool)
    ensures info.None? ==> r
    ensures r ==> forall amount: Amount :: CheckClaim(amount, info).Err?
  {
    match info
    case None => true
    case Some(BonusInfo(Missing)) => false
    case Some(BonusInfo(Given(text, parsed))) => text != "" && parsed.Num? && parsed.v <= 0.0
  }

  /** The button does not cover every refusal: a record without the field,
      or with an empty text, leaves it enabled, yet reads as a bonus of 0, so
      every claim is refused once submitted. */
  lemma {:induction false} EnabledButRefused(amount: Amount, info: Option<BonusInfo>)
    requires info == Some(BonusInfo(Missing)) || info == Some(BonusInfo(Given("", NaN)))
    ensures !ClaimDisabled(info) && CheckClaim(amount, info).Err?
  {
    assert Available(info) == Num(0.0);
  }

  datatype ChipColor = Success | Warning | Error | Default

  /** `getStatusColor(status)` for a withdrawal claim. */
  function StatusColor(status: string): (c: ChipColor)
    ensures c == Success <==> status == "approved"
    ensures c == Warning <==> status == "pending"
    ensures c == Error <==> status == "rejected"
  {
    match status
    case "approved" => Success
    case "pending" => Warning
    case "rejected" => Error
    case _ => Default
  }

  const LoadFailedMessage := "Failed to load bonus information"

  /** The answer to the bonus-information request. */
  datatype InfoReply = InfoAnswered(success: bool, bonusInfo: Option<BonusInfo>) | InfoFailed(serverError: Option<string>)

  class MyBonusPage {
    var bonusInfo: Option<BonusInfo>
    var error: string
    var success: string
    var claimDialogOpen: bool
    var claimAmount: Amount
    var expandedUsers: map<int, bool>

    constructor ()
      ensures bonusInfo == None && error == "" && success == "" && !claimDialogOpen
      ensures claimAmount == Amount("", NaN) && expandedUsers == map[]
    {
      bonusInfo, error, success := None, "", "";
      claimDialogOpen, claimAmount, expandedUsers := false, Amount("", NaN), map[];
    }

    /** `fetchBonusInfo`: take the record on success, show the error on failure. */
    method FetchBonusInfo(reply: InfoReply)
      modifies this
      ensures reply.InfoAnswered? && reply.success ==> bonusInfo == reply.bonusInfo && error == old(error)
      ensures reply.InfoAnswered? && !reply.success ==> bonusInfo == old(bonusInfo) && error == old(error)
      ensures reply.InfoFailed? ==>
        bonusInfo == old(bonusInfo) && error == ErrorText(reply.serverError, LoadFailedMessage)
      ensures success == old(success) && claimDialogOpen == old(claimDialogOpen)
      ensures claimAmount == old(claimAmount) && expandedUsers == old(expandedUsers)
    {
      match reply {
        case InfoAnswered(ok, info) =>
          if ok {
            bonusInfo := info;
          }
        case InfoFailed(serverError) =>
          error := ErrorText(serverError, LoadFailedMessage);
      }
    }

    /** `handleClaimBonus`: a refused amount shows its message and sends
        nothing; an accepted one is sent, and on success the dialog closes,
        the amount is cleared and the bonus information reloaded. */
    method HandleClaimBonus(reply: Reply) returns (request: Option<ClaimRequest>, refetch: bool)
      modifies this
      ensures var check := CheckClaim(old(claimAmount), old(bonusInfo));
        request == if check.Ok? then Some(check.value) else None
      ensures request.None? ==> error == CheckClaim(old(claimAmount), old(bonusInfo)).error &&
                                claimDialogOpen == old(claimDialogOpen) && claimAmount == old(claimAmount)
      ensures refetch <==> request.Some? && reply == Answered(true)
      ensures refetch ==> success == SubmittedMessage && !claimDialogOpen && claimAmount.text == "" && error == old(error)
      ensures request.Some? && reply.Failed? ==> error == ErrorText(reply.serverError, ClaimFailedMessage) &&
                                                 claimDialogOpen == old(claimDialogOpen) && claimAmount == old(claimAmount)
      ensures request.Some? && reply == Answered(false) ==>
        error == old(error) && claimDialogOpen == old(claimDialogOpen) && claimAmount == old(claimAmount)
      ensures claimDialogOpen != old(claimDialogOpen) ==> refetch
      ensures !refetch ==> success == old(success)
      ensures bonusInfo == old(bonusInfo) && expandedUsers == old(expandedUsers)
    {
      refetch := false;
      var check := CheckClaim(claimAmount, bonusInfo);
      if check.Err? {
        error := check.error;
        request := None;
        return;
      }
      request := Some(check.value);
      match reply {
        case Answered(ok) =>
          if ok {
            success := SubmittedMessage;
            claimDialogOpen := false;
            claimAmount := Amount("", NaN);
            refetch := true;
          }
        case Failed(serverError) =>
          error := ErrorText(serverError, ClaimFailedMessage);
      }
    }

    /** `toggleUserExpansion(userId)` */
    method ToggleUserExpansion(userId: int)
      modifies this
      ensures expandedUsers == Flags.Toggle(old(expandedUsers), userId)
      ensures Flags.IsOn(expandedUsers, userId) == !Flags.IsOn(old(expandedUsers), userId)
      ensures forall id :: id != userId ==> Flags.IsOn(expandedUsers, id) == Flags.IsOn(old(expandedUsers), id)
      ensures bonusInfo == old(bonusInfo) && error == old(error) && success == old(success)
      ensures claimDialogOpen == old(claimDialogOpen) && claimAmount == old(claimAmount)
    {
      expandedUsers := Flags.Toggle(expandedUsers, userId);
    }
  }
}
