/** The referral-code page (`CreateReferral`): who may open it and which
    roles they may invite, the role labels, the status of a code, the share
    link, and the create, tab and pager handlers. */
module CreateReferral {
  import opened Util
  import AppRoutes

  /** The page body is for owners and admins; everyone else, signed in or
      not, gets the permission error. */
  function CanAccess(role: Option<string>): (r: bool)
    ensures r ==> role.Some? && role.value != "reseller"
    ensures r <==> role in {Some("owner"), Some("admin")}
  {
    role == Some("owner") || role == Some("admin")
  }

  /** The roles the role box offers: an owner invites admins and resellers,
      an admin resellers only, anyone else nobody. */
  function AvailableRoles(role: Option<string>): (roles: seq<string>)
    ensures role == Some("owner") ==> roles == ["admin", "reseller"]
    ensures role == Some("admin") ==> roles == ["reseller"]
    ensures !CanAccess(role) ==> roles == []
  {
    if role == Some("owner") then ["admin", "reseller"]
    else if role == Some("admin") then ["reseller"]
    else []
  }

  /** The role box offers something exactly to those who may open the page;
      it always offers the form's default role "reseller" then, and never
      the owner role or the inviter's own role except to an owner. */
  lemma RolesFollowAccess(role: Option<string>)
    ensures AvailableRoles(role) != [] <==> CanAccess(role)
    ensures CanAccess(role) ==> "reseller" in AvailableRoles(role)
    ensures "owner" !in AvailableRoles(role)
    ensures role == Some("admin") ==> "admin" !in AvailableRoles(role)
  {
  }

  function UpperAscii(c: char): char {
    if 'a' <= c <= 'z' then (c as int - 32) as char else c
  }

  /** `role.charAt(0).toUpperCase() + role.slice(1)` */
  function RoleLabel(role: string): (shown: string)
    ensures |shown| == |role|
    ensures role != [] ==> shown[0] == UpperAscii(role[0]) && shown[1..] == role[1..]
  {
    if role == [] then [] else [UpperAscii(role[0])] + role[1..]
  }

  lemma RoleLabels()
    ensures RoleLabel("admin") == "Admin" && RoleLabel("reseller") == "Reseller"
  {
  }

  datatype CodeStatus = Used | Expired | Active

  /** `getStatusChip(isUsed, expiresAt)` against the clock reading `now`. An
      expiry the date parser cannot read (`None`) compares false, as NaN
      does, so such a code shows as active. */
  function StatusChip(isUsed: bool, expiresAt: Option<int>, now: int): (status: CodeStatus)
    ensures status == Used <==> isUsed
    ensures status == Expired <==> !isUsed && expiresAt.Some? && expiresAt.value < now
  {
    if isUsed then Used
    else if expiresAt.Some? && expiresAt.value < now then Expired
    else Active
  }

  /** A used code is "Used" whatever its expiry; an unused one is "Expired"
      exactly when its expiry is known and past, and "Active" otherwise; an
      active code stays active at any earlier time. */
  lemma {:induction false} StatusChipCases(isUsed: bool, expiresAt: Option<int>, now: int, earlier: int)
    ensures isUsed <==> StatusChip(isUsed, expiresAt, now) == Used
    ensures StatusChip(isUsed, expiresAt, now) == Expired <==> !isUsed && expiresAt.Some? && expiresAt.value < now
    ensures StatusChip(isUsed, expiresAt, now) == Active && earlier <= now ==>
      StatusChip(isUsed, expiresAt, earlier) == Active
  {
  }

  const SharePath := "/register"
  const RefQuery := "?ref="

  /** `openShareDialog`'s link: `${origin}/register?ref=${code}`. */
  function ShareUrl(origin: string, code: string): (url: string)
    ensures StartsWith(url, origin + SharePath + RefQuery)
    ensures url[|origin + SharePath + RefQuery|..] == code
  {
    var url := origin + SharePath + RefQuery + code;
    assert url[..|origin + SharePath + RefQuery|] == origin + SharePath + RefQuery;
    url
  }

  /** The code read back from a share link, given the origin it was made for. */
  function RefFromShareUrl(origin: string, url: string): Option<string> {
    var prefix := origin + SharePath + RefQuery;
    if StartsWith(url, prefix) then Some(url[|prefix|..]) else None
  }

  /** A share link gives back its code, and its path opens the
      registration page of the route table. */
  lemma {:induction false} ShareUrlRoundTrip(origin: string, code: string)
    ensures RefFromShareUrl(origin, ShareUrl(origin, code)) == Some(code)
    ensures AppRoutes.MatchRoute(SharePath) == AppRoutes.RegisterPage
  {
    var prefix := origin + SharePath + RefQuery;
    var url := ShareUrl(origin, code);
    assert url == prefix + code;
    assert url[..|prefix|] == prefix;
    assert url[|prefix|..] == code;
    AppRoutes.MatchRegister();
  }

  datatype CreateRequest = CreateRequest(role: string)

  const SelectRoleMessage := "Please select a role"
  const CreatedMessage := "Referral code created successfully!"
  const CreateFailedMessage := "Failed to create referral code"

  /** `createReferralCode`'s guard: an empty role is refused before any
      request. */
  function CheckCreate(role: string): (r: Result<CreateRequest, string>)
    ensures r.Ok? <==> role != ""
    ensures r.Ok? ==> r.value == CreateRequest(role)
    ensures r.Err? ==> r.error == SelectRoleMessage
  {
    if role == "" then Err(SelectRoleMessage) else Ok(CreateRequest(role))
  }

  /** The pager shows only for more than one page. */
  predicate PagerShown(totalPages: int) {
    totalPages > 1
  }

  predicate PreviousEnabled(page: int) {
    !(page <= 1)
  }

  predicate NextEnabled(page: int, totalPages: int) {
    !(page >= totalPages)
  }

  /** From a page within range, an enabled button asks for a page that is
      again within range. */
  lemma PagerStaysInRange(page: int, totalPages: int)
    requires 1 <= page <= totalPages
    ensures PreviousEnabled(page) ==> 1 <= page - 1 <= totalPages
    ensures NextEnabled(page, totalPages) ==> 1 <= page + 1 <= totalPages
    ensures PagerShown(totalPages) ==> PreviousEnabled(page) || NextEnabled(page, totalPages)
  {
  }

  datatype ShareDialog = ShareDialog(open: bool, code: string, url: string)

  const PageLimit := 10
  const LoadFailedMessage := "Failed to load referral codes"

  /** The answer to the list request: `success`, how many codes came back
      (`None` when `referral_codes` is missing, read as `[]`), and the
      paging the backend reports; or a failure with its `error` text. */
  datatype ListReply =
    | ListAnswered(success: bool, codes: Option<nat>, page: int, totalPages: int, totalItems: int)
    | ListFailed(serverError: Option<string>)

  /** The list request's query: `?page=<page>&limit=10`. */
  function ListQuery(page: nat): (params: seq<QueryParam>)
    ensures Lookup(params, "page") == Some(DecimalString(page))
    ensures Lookup(params, "limit") == Some(DecimalString(PageLimit))
    ensures |params| == 2
  {
    [QueryParam("page", DecimalString(page)), QueryParam("limit", DecimalString(PageLimit))]
  }

  class ReferralPage {
    var tabValue: nat
    var codeCount: nat
    var role: string
    var page: int
    var totalPages: int
    var shareDialog: ShareDialog
    var error: string
    var success: string

    constructor ()
      ensures tabValue == 0 && codeCount == 0 && role == "reseller"
      ensures page == 1 && totalPages == 1 && shareDialog == ShareDialog(false, "", "")
      ensures error == "" && success == ""
    {
      tabValue, codeCount, role := 0, 0, "reseller";
      page, totalPages := 1, 1;
      shareDialog := ShareDialog(false, "", "");
      error, success := "", "";
    }

    /** `fetchReferralCodes(page)`: on a successful answer, take the codes
        and the backend's paging; on a failure, show its error. */
    method FetchReferralCodes(requested: nat, reply: ListReply) returns (query: seq<QueryParam>)
      modifies this
      ensures query == ListQuery(requested)
      ensures reply.ListAnswered? && reply.success ==>
        codeCount == (if reply.codes.Some? then reply.codes.value else 0) &&
        page == reply.page && totalPages == reply.totalPages && error == old(error)
      ensures reply.ListAnswered? && !reply.success ==>
        codeCount == old(codeCount) && page == old(page) && totalPages == old(totalPages) && error == old(error)
      ensures reply.ListFailed? ==>
        error == ErrorText(reply.serverError, LoadFailedMessage) &&
        codeCount == old(codeCount) && page == old(page) && totalPages == old(totalPages)
      ensures tabValue == old(tabValue) && role == old(role) && success == old(success)
      ensures shareDialog == old(shareDialog)
    {
      query := ListQuery(requested);
      match reply {
        case ListAnswered(ok, codes, newPage, newTotalPages, _) =>
          if ok {
            codeCount := if codes.Some? then codes.value else 0;
            page, totalPages := newPage, newTotalPages;
          }
        case ListFailed(serverError) =>
          error := ErrorText(serverError, LoadFailedMessage);
      }
    }

    /** The mount effect: owners load page 1 of their codes at once. */
    method AutoLoad(userRole: Option<string>) returns (fetch: Option<int>)
      ensures fetch == if userRole == Some("owner") then Some(1) else None
      ensures fetch.Some? ==> CanAccess(userRole)
    {
      fetch := if userRole == Some("owner") then Some(1) else None;
    }

    /** `handleTabChange`: switching to the list tab loads page 1 only while
        no code has been loaded. */
    method HandleTabChange(newValue: nat) returns (fetch: Option<int>)
      modifies this
      ensures tabValue == newValue
      ensures fetch == if newValue == 1 && codeCount == 0 then Some(1) else None
      ensures codeCount == old(codeCount) && role == old(role) && page == old(page)
      ensures totalPages == old(totalPages) && shareDialog == old(shareDialog)
      ensures error == old(error) && success == old(success)
    {
      tabValue := newValue;
      fetch := if newValue == 1 && codeCount == 0 then Some(1) else None;
    }

    /** `createReferralCode`: refuse an empty role; otherwise clear the
        error, send the request, and on success report it, reset the role
        to "reseller", reload page 1 and switch to the list tab. */
    method CreateReferralCode(reply: Reply) returns (request: Option<CreateRequest>, fetch: Option<int>)
      modifies this
      ensures var check := CheckCreate(old(role));
        request == if check.Ok? then Some(check.value) else None
      ensures request.None? ==> error == SelectRoleMessage && role == old(role) && tabValue == old(tabValue)
      ensures fetch.Some? <==> request.Some? && reply == Answered(true)
      ensures fetch.Some? ==> fetch == Some(1) && success == CreatedMessage && role == "reseller" &&
                              tabValue == 1 && error == ""
      ensures request.Some? && reply == Answered(false) ==> error == "" && role == old(role) && tabValue == old(tabValue)
      ensures request.Some? && reply.Failed? ==>
        error == ErrorText(reply.serverError, CreateFailedMessage) && role == old(role) && tabValue == old(tabValue)
      ensures fetch.None? ==> success == old(success)
      ensures codeCount == old(codeCount) && page == old(page) && totalPages == old(totalPages)
      ensures shareDialog == old(shareDialog)
    {
      fetch := None;
      var check := CheckCreate(role);
      if check.Err? {
        error := check.error;
        request := None;
        return;
      }
      error := "";
      request := Some(check.value);
      match reply
      case Answered(ok) =>
        if ok {
          success := CreatedMessage;
          role := "reseller";
          fetch := Some(1);
          tabValue := 1;
        }
      case Failed(serverError) =>
        error := ErrorText(serverError, CreateFailedMessage);
    }

    /** `openShareDialog(code)` for the page's origin. */
    method OpenShareDialog(origin: string, code: string)
      modifies this
      ensures shareDialog == ShareDialog(true, code, ShareUrl(origin, code))
      ensures RefFromShareUrl(origin, shareDialog.url) == Some(code)
      ensures tabValue == old(tabValue) && role == old(role) && page == old(page)
      ensures codeCount == old(codeCount) && totalPages == old(totalPages)
      ensures error == old(error) && success == old(success)
    {
      shareDialog := ShareDialog(true, code, ShareUrl(origin, code));
      ShareUrlRoundTrip(origin, code);
    }

    /** The Previous button: `fetchReferralCodes(page - 1)` when enabled. */
    method PreviousPage() returns (fetch: Option<int>)
      ensures fetch == if PreviousEnabled(page) then Some(page - 1) else None
      ensures 1 <= page <= totalPages && fetch.Some? ==> 1 <= fetch.value < page
    {
      fetch := if PreviousEnabled(page) then Some(page - 1) else None;
    }

    /** The Next button: `fetchReferralCodes(page + 1)` when enabled. */
    method NextPage() returns (fetch: Option<int>)
      ensures fetch == if NextEnabled(page, totalPages) then Some(page + 1) else None
      ensures 1 <= page <= totalPages && fetch.Some? ==> page < fetch.value <= totalPages
    {
      fetch := if NextEnabled(page, totalPages) then Some(page + 1) else None;
    }
  }
}
