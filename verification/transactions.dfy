/** The transactions page (`Transactions`): how a transaction's type is
    coloured, iconised and labelled, the query string of the list request,
    and the paging and filter-clearing handlers. */
module Transactions {
  import opened Util

  /** `getTransactionTypeColor(type)` */
  function TypeColor(kind: string): (c: string)
    ensures c == "primary" <==> kind == "key_purchase"
    ensures c == "success" <==> kind == "recharge"
    ensures c == "primary" || c == "success" || c == "default"
  {
    if kind == "key_purchase" then "primary"
    else if kind == "recharge" then "success"
    else "default"
  }

  datatype Icon = ReceiptIcon | PaymentIcon | TransactionIcon

  /** `getTransactionTypeIcon(type)` */
  function TypeIcon(kind: string): (icon: Icon)
    ensures icon == ReceiptIcon <==> kind == "key_purchase"
    ensures icon == PaymentIcon <==> kind == "recharge" || kind == "commission"
  {
    if kind == "key_purchase" then ReceiptIcon
    else if kind == "recharge" || kind == "commission" then PaymentIcon
    else TransactionIcon
  }

  /** `getTransactionTypeLabel(type)`: the two known types get a readable
      label, anything else is shown as sent. */
  function TypeLabel(kind: string): (shown: string)
    ensures kind == "key_purchase" ==> shown == "Key Purchase"
    ensures kind == "recharge" ==> shown == "Recharge"
    ensures shown != kind <==> kind == "key_purchase" || kind == "recharge"
  {
    if kind == "key_purchase" then
      assert "Key Purchase"[0] != kind[0];
      "Key Purchase"
    else if kind == "recharge" then
      assert "Recharge"[0] != kind[0];
      "Recharge"
    else kind
  }

  /** The three maps agree on which types they know: a type has its own
      colour exactly when it has its own label, and then its own icon. */
  lemma KnownTypesAgree(kind: string)
    ensures TypeColor(kind) != "default" <==> TypeLabel(kind) != kind
    ensures TypeColor(kind) != "default" ==> TypeIcon(kind) != TransactionIcon
  {
  }

  /** The icon map knows one type more than the other two: a commission shows
      the payment icon, the default colour and its raw name. */
  lemma CommissionHasOnlyAnIcon()
    ensures TypeIcon("commission") == PaymentIcon
    ensures TypeColor("commission") == "default" && TypeLabel("commission") == "commission"
  {
  }

  datatype Filters = Filters(kind: string, startDate: string, endDate: string, minAmount: string,
                             maxAmount: string, userId: string, doneBy: string)

  const NoFilters := Filters("", "", "", "", "", "", "")

  /** The list's state: one-based page, page size and filters. */
  datatype ListState = ListState(page: nat, rowsPerPage: nat, filters: Filters)

  const Initial := ListState(1, 20, NoFilters)

  /** The `URLSearchParams` of the list request: page and page size, then
      each of type, dates and amounts when not empty. */
  function ListParams(s: ListState): (r: seq<QueryParam>)
    ensures |r| >= 2 && r[0] == QueryParam("page", DecimalString(s.page))
    ensures r[1] == QueryParam("limit", DecimalString(s.rowsPerPage))
  {
    [QueryParam("page", DecimalString(s.page)), QueryParam("limit", DecimalString(s.rowsPerPage))]
    + IfNotEmpty("type", s.filters.kind)
    + IfNotEmpty("start_date", s.filters.startDate)
    + IfNotEmpty("end_date", s.filters.endDate)
    + IfNotEmpty("min_amount", s.filters.minAmount)
    + IfNotEmpty("max_amount", s.filters.maxAmount)
  }

  /** A name's value in the list request, part by part. */
  lemma ListParamsLookup(s: ListState, name: string)
    ensures Lookup(ListParams(s), name) ==
      FirstSome(Lookup([QueryParam("page", DecimalString(s.page)), QueryParam("limit", DecimalString(s.rowsPerPage))], name),
      FirstSome(Lookup(IfNotEmpty("type", s.filters.kind), name),
      FirstSome(Lookup(IfNotEmpty("start_date", s.filters.startDate), name),
      FirstSome(Lookup(IfNotEmpty("end_date", s.filters.endDate), name),
      FirstSome(Lookup(IfNotEmpty("min_amount", s.filters.minAmount), name),
                Lookup(IfNotEmpty("max_amount", s.filters.maxAmount), name))))))
  {
    var p := [QueryParam("page", DecimalString(s.page)), QueryParam("limit", DecimalString(s.rowsPerPage))];
    var a := IfNotEmpty("type", s.filters.kind);
    var b := IfNotEmpty("start_date", s.filters.startDate);
    var c := IfNotEmpty("end_date", s.filters.endDate);
    var d := IfNotEmpty("min_amount", s.filters.minAmount);
    var e := IfNotEmpty("max_amount", s.filters.maxAmount);
    LookupAppend(p + a + b + c + d, e, name);
    LookupAppend(p + a + b + c, d, name);
    LookupAppend(p + a + b, c, name);
    LookupAppend(p + a, b, name);
    LookupAppend(p, a, name);
  }

  /** The page and page size are always sent. */
  lemma ListParamsCarryPaging(s: ListState)
    ensures Lookup(ListParams(s), "page") == Some(DecimalString(s.page))
    ensures Lookup(ListParams(s), "limit") == Some(DecimalString(s.rowsPerPage))
  {
    ListParamsLookup(s, "page");
    ListParamsLookup(s, "limit");
  }

  /** A filter is sent exactly when it is not empty, and then unchanged. */
  lemma FilterLookup(s: ListState, name: string, value: string)
    requires (name, value) in {("type", s.filters.kind), ("start_date", s.filters.startDate),
                               ("end_date", s.filters.endDate), ("min_amount", s.filters.minAmount),
                               ("max_amount", s.filters.maxAmount)}
    ensures Lookup(ListParams(s), name) == if value != "" then Some(value) else None
  {
    ListParamsLookup(s, name);
    assert name[0] != 'p' && name[0] != 'l';
    LookupIfNotEmpty("type", s.filters.kind, name);
    LookupIfNotEmpty("start_date", s.filters.startDate, name);
    LookupIfNotEmpty("end_date", s.filters.endDate, name);
    LookupIfNotEmpty("min_amount", s.filters.minAmount, name);
    LookupIfNotEmpty("max_amount", s.filters.maxAmount, name);
  }

  /** The user and done-by filters are never sent, whatever they hold. */
  lemma UserFiltersAreNeverSent(s: ListState)
    ensures Lookup(ListParams(s), "user_id") == None
    ensures Lookup(ListParams(s), "done_by") == None
  {
    ListParamsLookup(s, "user_id");
    ListParamsLookup(s, "done_by");
  }

  /** `handleClearFilters`: every filter empty and page 1, page size kept. */
  function ClearFilters(s: ListState): (t: ListState)
    ensures t.page == 1 && t.rowsPerPage == s.rowsPerPage
    ensures t.filters == NoFilters
    ensures t.filters.userId == "" && t.filters.doneBy == ""
    ensures ListParams(t) == [QueryParam("page", "1"), QueryParam("limit", DecimalString(s.rowsPerPage))]
  {
    ListState(1, s.rowsPerPage, NoFilters)
  }

  /** `handleChangePage`: the table's zero-based page, one-based in state. */
  function ChangePage(s: ListState, newPage: nat): (t: ListState)
    ensures t.page == newPage + 1 && t.page >= 1
    ensures t.rowsPerPage == s.rowsPerPage && t.filters == s.filters
  {
    s.(page := newPage + 1)
  }

  /** `handleChangeRowsPerPage`: the new page size, back to page 1. */
  function ChangeRowsPerPage(s: ListState, rowsPerPage: nat): (t: ListState)
    ensures t.rowsPerPage == rowsPerPage && t.page == 1 && t.filters == s.filters
  {
    s.(rowsPerPage := rowsPerPage, page := 1)
  }

  /** Starting from page 1, every handler keeps the page one-based. */
  lemma HandlersKeepPageOneBased(s: ListState, newPage: nat, rowsPerPage: nat)
    requires s.page >= 1
    ensures ClearFilters(s).page >= 1 && ChangePage(s, newPage).page >= 1
    ensures ChangeRowsPerPage(s, rowsPerPage).page >= 1
  {
  }
}
