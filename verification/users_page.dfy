/** The referred-users list (`Users`): the page count shown under the table,
    the Previous and Next buttons, the list request, and the link to a
    user's profile. */
module UsersPage {
  import opened Util
  import AppRoutes

  const Limit := 10

  /** `Math.ceil(total / limit)` for a non-negative total and a positive limit. */
  function PageCount(total: nat, limit: nat): (n: nat)
    requires limit > 0
    ensures n * limit >= total
    ensures n > 0 ==> (n - 1) * limit < total
  {
    (total + limit - 1) / limit
  }

  /** The page count is the least number of pages that holds every row. */
  lemma {:induction false} PageCountIsLeast(total: nat, limit: nat, m: nat)
    requires limit > 0 && m * limit >= total
    ensures PageCount(total, limit) <= m
  {
    var n := PageCount(total, limit);
    if n > m {
      assert (n - 1) * limit >= m * limit by {
        assert n - 1 >= m;
        MulMonotone(m, n - 1, limit);
      }
    }
  }

  lemma MulMonotone(a: nat, b: nat, c: nat)
    requires a <= b
    ensures a * c <= b * c
  {
  }

  /** Previous is enabled only when there is a page before the current one. */
  function PreviousDisabled(page: int): (r: bool)
    ensures !r ==> page - 1 >= 1
  {
    page <= 1
  }

  /** Next is enabled only while rows remain after the current page; from a
      page in range it is disabled exactly on the last page that holds rows. */
  function NextDisabled(page: int, total: nat): (r: bool)
    ensures !r && page >= 1 ==> page * Limit < total
    ensures r && 1 <= page <= PageCount(total, Limit) ==> page * Limit >= total
  {
    page >= PageCount(total, Limit)
  }

  /** Where a click leaves the page number: one down or one up when the
      button is enabled, unchanged otherwise. */
  function Previous(page: int): (p: int)
    ensures PreviousDisabled(page) ==> p == page
    ensures !PreviousDisabled(page) ==> p == page - 1
  {
    if PreviousDisabled(page) then page else page - 1
  }

  function Next(page: int, total: nat): (p: int)
    ensures NextDisabled(page, total) ==> p == page
    ensures !NextDisabled(page, total) ==> p == page + 1
  {
    if NextDisabled(page, total) then page else page + 1
  }

  /** Starting from page 1, the buttons keep the page between 1 and the page
      count (or at 1 when there are no rows): Previous and Next undo each
      other while both are enabled. */
  lemma {:induction false} ButtonsKeepPageInRange(page: int, total: nat)
    requires 1 <= page && (page <= PageCount(total, Limit) || page == 1)
    ensures 1 <= Previous(page) && (Previous(page) <= PageCount(total, Limit) || Previous(page) == 1)
    ensures 1 <= Next(page, total) && (Next(page, total) <= PageCount(total, Limit) || Next(page, total) == 1)
    ensures !NextDisabled(page, total) ==> Previous(Next(page, total)) == page
    ensures !PreviousDisabled(page) ==> Next(Previous(page), total) == page
  {
  }

  /** No rows: the page reads "1 of 0" and both buttons are disabled. */
  lemma EmptyListDisablesBoth()
    ensures PageCount(0, Limit) == 0 && PreviousDisabled(1) && NextDisabled(1, 0)
  {
  }

  /** The list request's query: `?page=<page>&limit=<limit>`. */
  function ListQuery(page: nat, limit: nat): (params: seq<QueryParam>)
    ensures Lookup(params, "page") == Some(DecimalString(page))
    ensures Lookup(params, "limit") == Some(DecimalString(limit))
  {
    [QueryParam("page", DecimalString(page)), QueryParam("limit", DecimalString(limit))]
  }

  /** `handleViewProfile(user)`: the path `/user-profile/<id>`. */
  function ProfilePath(userId: nat): (path: string)
    ensures StartsWith(path, AppRoutes.ProfilePrefix)
  {
    var path := AppRoutes.ProfilePrefix + DecimalString(userId);
    assert path[..|AppRoutes.ProfilePrefix|] == AppRoutes.ProfilePrefix;
    path
  }

  /** The profile link opens the profile page of that same user. */
  lemma ProfileLinkOpensProfile(userId: nat)
    ensures AppRoutes.MatchRoute(ProfilePath(userId)) == AppRoutes.UserProfilePage(DecimalString(userId))
  {
    var id := DecimalString(userId);
    assert '/' !in id by {
      assert forall i :: 0 <= i < |id| ==> IsDigit(id[i]);
    }
    AppRoutes.ProfileLinkMatches(id);
  }
}
