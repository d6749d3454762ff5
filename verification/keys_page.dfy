/** The sold-keys page (`Keys`, in `Key.jsx`): the shortened key shown on
    small screens, the per-key reveal toggle, the query string of the list
    request, and the paging and search-clearing handlers. */
module KeysPage {
  import opened Util
  import Flags

  const ShortLimit := 20
  const EdgeLength := 10

  /** `shortenKeyCode(keyCode)`: a code longer than twenty characters shows
      its first ten, an ellipsis and its last ten; a shorter one is shown
      whole. */
  function ShortenKeyCode(keyCode: string): (r: string)
    ensures |keyCode| <= ShortLimit ==> r == keyCode
    ensures |keyCode| > ShortLimit ==> |r| == 2 * EdgeLength + 3
    ensures |keyCode| > ShortLimit ==>
      r[..EdgeLength] == keyCode[..EdgeLength] && r[EdgeLength..EdgeLength + 3] == "..." &&
      r[EdgeLength + 3..] == keyCode[|keyCode| - EdgeLength..]
  {
    if |keyCode| > ShortLimit then
      keyCode[..EdgeLength] + "..." + keyCode[|keyCode| - EdgeLength..]
    else keyCode
  }

  /** A shortened code is already as short as it gets: shortening it again
      gives the same text, since it keeps the same ten characters at each end. */
  lemma {:induction false} ShortenIsIdempotent(keyCode: string)
    ensures ShortenKeyCode(ShortenKeyCode(keyCode)) == ShortenKeyCode(keyCode)
  {
    if |keyCode| > ShortLimit {
      var r := ShortenKeyCode(keyCode);
      assert |r| == 23 > ShortLimit;
      var rr := ShortenKeyCode(r);
      assert rr == r[..EdgeLength] + "..." + r[|r| - EdgeLength..];
      assert r[|r| - EdgeLength..] == r[EdgeLength + 3..];
      assert r == r[..EdgeLength] + r[EdgeLength..EdgeLength + 3] + r[EdgeLength + 3..];
    }
  }

  datatype DateFilter = DateFilter(range: string, startDate: string, endDate: string)

  const AllDates := DateFilter("all", "", "")

  /** The `URLSearchParams` of the list request: the page and page size
      always, then the search text and the two dates when they are not
      empty. */
  function ListParams(page: nat, rowsPerPage: nat, searchQuery: string, dateFilter: DateFilter): (r: seq<QueryParam>)
    ensures |r| >= 2 && r[0] == QueryParam("page", DecimalString(page))
    ensures r[1] == QueryParam("limit", DecimalString(rowsPerPage))
  {
    [QueryParam("page", DecimalString(page)), QueryParam("limit", DecimalString(rowsPerPage))]
    + IfNotEmpty("search", searchQuery)
    + IfNotEmpty("start_date", dateFilter.startDate)
    + IfNotEmpty("end_date", dateFilter.endDate)
  }

  /** A name's value in the list request, part by part. */
  lemma ListParamsLookup(page: nat, rowsPerPage: nat, searchQuery: string, dateFilter: DateFilter, name: string)
    ensures Lookup(ListParams(page, rowsPerPage, searchQuery, dateFilter), name) ==
      FirstSome(Lookup([QueryParam("page", DecimalString(page)), QueryParam("limit", DecimalString(rowsPerPage))], name),
      FirstSome(Lookup(IfNotEmpty("search", searchQuery), name),
      FirstSome(Lookup(IfNotEmpty("start_date", dateFilter.startDate), name),
                Lookup(IfNotEmpty("end_date", dateFilter.endDate), name))))
  {
    var p := [QueryParam("page", DecimalString(page)), QueryParam("limit", DecimalString(rowsPerPage))];
    var a := IfNotEmpty("search", searchQuery);
    var b := IfNotEmpty("start_date", dateFilter.startDate);
    var c := IfNotEmpty("end_date", dateFilter.endDate);
    LookupAppend(p + a + b, c, name);
    LookupAppend(p + a, b, name);
    LookupAppend(p, a, name);
  }

  /** The page number and page size are always sent; the range name never is. */
  lemma ListParamsCarryPaging(page: nat, rowsPerPage: nat, searchQuery: string, dateFilter: DateFilter)
    ensures var ps := ListParams(page, rowsPerPage, searchQuery, dateFilter);
      Lookup(ps, "page") == Some(DecimalString(page)) &&
      Lookup(ps, "limit") == Some(DecimalString(rowsPerPage)) &&
      Lookup(ps, "range") == None
  {
    ListParamsLookup(page, rowsPerPage, searchQuery, dateFilter, "page");
    ListParamsLookup(page, rowsPerPage, searchQuery, dateFilter, "limit");
    ListParamsLookup(page, rowsPerPage, searchQuery, dateFilter, "range");
  }

  /** The search text is sent exactly when it is not empty, unchanged. */
  lemma ListParamsCarrySearch(page: nat, rowsPerPage: nat, searchQuery: string, dateFilter: DateFilter)
    ensures Lookup(ListParams(page, rowsPerPage, searchQuery, dateFilter), "search") ==
      if searchQuery != "" then Some(searchQuery) else None
  {
    ListParamsLookup(page, rowsPerPage, searchQuery, dateFilter, "search");
  }

  /** Each date is sent exactly when it is not empty, unchanged. */
  lemma ListParamsCarryDates(page: nat, rowsPerPage: nat, searchQuery: string, dateFilter: DateFilter)
    ensures var ps := ListParams(page, rowsPerPage, searchQuery, dateFilter);
      Lookup(ps, "start_date") == (if dateFilter.startDate != "" then Some(dateFilter.startDate) else None) &&
      Lookup(ps, "end_date") == (if dateFilter.endDate != "" then Some(dateFilter.endDate) else None)
  {
    ListParamsLookup(page, rowsPerPage, searchQuery, dateFilter, "start_date");
    ListParamsLookup(page, rowsPerPage, searchQuery, dateFilter, "end_date");
  }

  /** The list's paging, search and reveal state. */
  class KeysPageState {
    var page: nat
    var rowsPerPage: nat
    var revealedKeys: map<int, bool>
    var searchQuery: string
    var dateFilter: DateFilter

    constructor ()
      ensures page == 1 && rowsPerPage == 10 && revealedKeys == map[]
      ensures searchQuery == "" && dateFilter == AllDates
    {
      page, rowsPerPage, revealedKeys := 1, 10, map[];
      searchQuery, dateFilter := "", AllDates;
    }

    /** Whether key `id` is shown in clear rather than blurred. */
    function Revealed(id: int): bool
      reads this
    {
      Flags.IsOn(revealedKeys, id)
    }

    /** `toggleKeyVisibility(keyId)`: flip that key alone. */
    method ToggleKeyVisibility(keyId: int)
      modifies this
      ensures revealedKeys == Flags.Toggle(old(revealedKeys), keyId)
      ensures Revealed(keyId) == !old(Revealed(keyId))
      ensures forall id :: id != keyId ==> Revealed(id) == old(Revealed(id))
      ensures page == old(page) && rowsPerPage == old(rowsPerPage)
      ensures searchQuery == old(searchQuery) && dateFilter == old(dateFilter)
    {
      revealedKeys := Flags.Toggle(revealedKeys, keyId);
    }

    /** `handleChangePage`: the table's zero-based page, one-based in state. */
    method HandleChangePage(newPage: nat)
      modifies this
      ensures page == newPage + 1
      ensures rowsPerPage == old(rowsPerPage) && revealedKeys == old(revealedKeys)
      ensures searchQuery == old(searchQuery) && dateFilter == old(dateFilter)
    {
      page := newPage + 1;
    }

    /** `handleChangeRowsPerPage`: the new page size, back to page 1. */
    method HandleChangeRowsPerPage(value: nat)
      modifies this
      ensures rowsPerPage == value && page == 1
      ensures revealedKeys == old(revealedKeys)
      ensures searchQuery == old(searchQuery) && dateFilter == old(dateFilter)
    {
      rowsPerPage := value;
      page := 1;
    }

    /** `handleSearch`, taken as one step: back to page 1 for the search. */
    method HandleSearch()
      modifies this
      ensures page == 1
      ensures rowsPerPage == old(rowsPerPage) && revealedKeys == old(revealedKeys)
      ensures searchQuery == old(searchQuery) && dateFilter == old(dateFilter)
    {
      page := 1;
    }

    /** The search field's `onChange`: `setSearchQuery(e.target.value)`. */
    method SetSearchQuery(text: string)
      modifies this
      ensures searchQuery == text
      ensures page == old(page) && rowsPerPage == old(rowsPerPage)
      ensures revealedKeys == old(revealedKeys) && dateFilter == old(dateFilter)
    {
      searchQuery := text;
    }

    /** The custom range's date fields: `setDateFilter({...dateFilter, start_date})`
        and the same for `end_date`. */
    method SetDates(startDate: string, endDate: string)
      modifies this
      ensures dateFilter == old(dateFilter).(startDate := startDate, endDate := endDate)
      ensures page == old(page) && rowsPerPage == old(rowsPerPage)
      ensures revealedKeys == old(revealedKeys) && searchQuery == old(searchQuery)
    {
      dateFilter := dateFilter.(startDate := startDate, endDate := endDate);
    }

    /** `handleClearSearch`: no search text, every date, page 1. */
    method HandleClearSearch()
      modifies this
      ensures searchQuery == "" && dateFilter == AllDates && page == 1
      ensures rowsPerPage == old(rowsPerPage) && revealedKeys == old(revealedKeys)
    {
      searchQuery := "";
      dateFilter := AllDates;
      page := 1;
    }

    /** The query string the page sends in its current state. */
    function Params(): seq<QueryParam>
      reads this
    {
      ListParams(page, rowsPerPage, searchQuery, dateFilter)
    }
  }

  /** After clearing the search, the list request carries the page number and
      page size only. */
  method ClearedSearchSendsOnlyPaging(state: KeysPageState) returns (params: seq<QueryParam>)
    modifies state
    ensures params == [QueryParam("page", "1"), QueryParam("limit", DecimalString(state.rowsPerPage))]
  {
    state.HandleClearSearch();
    params := state.Params();
  }

  /** Typing a search text and searching sends that text, on page 1. */
  method TypedSearchIsSent(state: KeysPageState, text: string) returns (params: seq<QueryParam>)
    modifies state
    ensures Lookup(params, "search") == if text != "" then Some(text) else None
    ensures Lookup(params, "page") == Some("1")
  {
    state.SetSearchQuery(text);
    state.HandleSearch();
    params := state.Params();
    ListParamsCarrySearch(state.page, state.rowsPerPage, state.searchQuery, state.dateFilter);
    ListParamsCarryPaging(state.page, state.rowsPerPage, state.searchQuery, state.dateFilter);
  }
}
