/** The unsold-keys page (`UnsoldKeys`): the multi-select of table rows, the
    header checkbox, the request parameters with empty filters removed, the
    bulk delete, and the pagination and filter records. */
module UnsoldKeys {
  import opened Util

  // ---------------------------------------------------------------------
  // Selection

  /** `xs.indexOf(x)`: the first position of `x`, or -1. */
  function IndexOf(xs: seq<int>, x: int): (r: int)
    ensures r == -1 <==> x !in xs
    ensures r != -1 ==> 0 <= r < |xs| && xs[r] == x && x !in xs[..r]
  {
    if xs == [] then -1
    else if xs[0] == x then 0
    else
      var r := IndexOf(xs[1..], x);
      if r == -1 then -1
      else
        assert xs[..r + 1] == [xs[0]] + xs[1..][..r];
        r + 1
  }

  function RemoveAt(xs: seq<int>, i: nat): seq<int>
    requires i < |xs|
  {
    xs[..i] + xs[i + 1..]
  }

  /** `handleSelectKey(id)`, branch for branch: append an id that is not
      selected; otherwise drop its first occurrence by `slice(1)`,
      `slice(0, -1)` or the two slices around it. All three removal branches
      come to removing that one position. */
  function ToggleSelection(selected: seq<int>, id: int): (r: seq<int>)
    ensures id !in selected ==> r == selected + [id]
    ensures id in selected ==> r == RemoveAt(selected, IndexOf(selected, id))
  {
    var selectedIndex := IndexOf(selected, id);
    if selectedIndex == -1 then selected + [id]
    else if selectedIndex == 0 then selected[1..]
    else if selectedIndex == |selected| - 1 then selected[..|selected| - 1]
    else selected[..selectedIndex] + selected[selectedIndex + 1..]
  }

  predicate Distinct(xs: seq<int>) {
    forall i, j :: 0 <= i < j < |xs| ==> xs[i] != xs[j]
  }

  /** `isSelected(id)` */
  predicate IsSelected(selected: seq<int>, id: int) {
    IndexOf(selected, id) != -1
  }

  /** Removing one position of a list without duplicates removes exactly
      that value and keeps the list free of duplicates. */
  lemma {:induction false} RemoveAtDistinct(selected: seq<int>, i: nat)
    requires Distinct(selected) && i < |selected|
    ensures Distinct(RemoveAt(selected, i))
    ensures forall x :: x in RemoveAt(selected, i) <==> x in selected && x != selected[i]
  {
    var r := RemoveAt(selected, i);
    assert forall k :: 0 <= k < |r| ==> r[k] == (if k < i then selected[k] else selected[k + 1]);
    forall x
      ensures x in r <==> x in selected && x != selected[i]
    {
      if x in r {
        var k :| 0 <= k < |r| && r[k] == x;
        if k < i { assert selected[k] != selected[i]; } else { assert selected[k + 1] != selected[i]; }
      }
      if x in selected && x != selected[i] {
        var k :| 0 <= k < |selected| && selected[k] == x;
        if k < i { assert r[k] == x; } else { assert r[k - 1] == x; }
      }
    }
  }

  /** Toggling never introduces a duplicate, and on a selection without
      duplicates it flips exactly the toggled id's membership. */
  lemma {:induction false} ToggleKeepsDistinct(selected: seq<int>, id: int, other: int)
    requires Distinct(selected)
    ensures Distinct(ToggleSelection(selected, id))
    ensures IsSelected(ToggleSelection(selected, id), id) <==> !IsSelected(selected, id)
    ensures other != id ==> (IsSelected(ToggleSelection(selected, id), other) <==> IsSelected(selected, other))
  {
    if id in selected {
      RemoveAtDistinct(selected, IndexOf(selected, id));
    } else {
      var r := selected + [id];
      assert forall x :: x in r <==> x in selected || x == id;
    }
  }

  /** Toggling an id that is not selected twice gives back the selection. */
  lemma {:induction false} ToggleTwiceRestores(selected: seq<int>, id: int)
    requires id !in selected
    ensures ToggleSelection(ToggleSelection(selected, id), id) == selected
  {
    var once := selected + [id];
    assert once[..|selected|] == selected;
    assert forall k :: 0 <= k < |selected| ==> once[k] == selected[k] && once[k] != id;
    assert IndexOf(once, id) == |selected|;
  }

  /** A row of the table: the key's id and the ids of its provider and plan. */
  datatype UnsoldKey = UnsoldKey(id: int, providerId: int, planId: int)

  /** `handleSelectAllClick`: the ids of the rows in table order when checked,
      nothing when unchecked. */
  function SelectAll(keys: seq<UnsoldKey>, checked: bool): (r: seq<int>)
    ensures !checked ==> r == []
    ensures checked ==> |r| == |keys| && forall i :: 0 <= i < |keys| ==> r[i] == keys[i].id
  {
    if !checked || keys == [] then [] else [keys[0].id] + SelectAll(keys[1..], true)
  }

  /** The header checkbox: checked when every row is selected, by count. */
  function HeaderChecked(selectedCount: nat, rowCount: nat): (r: bool)
    ensures r ==> selectedCount > 0
    ensures rowCount == 0 ==> !r
  {
    rowCount > 0 && selectedCount == rowCount
  }

  /** The header checkbox: indeterminate when some but not all are selected. */
  function HeaderIndeterminate(selectedCount: nat, rowCount: nat): (r: bool)
    ensures selectedCount <= rowCount ==>
      (r <==> selectedCount > 0 && !HeaderChecked(selectedCount, rowCount))
  {
    selectedCount > 0 && selectedCount < rowCount
  }

  /** The header is never both checked and indeterminate; clicking it on a
      non-empty table checks it, and clicking it again clears it. */
  lemma HeaderFollowsSelectAll(keys: seq<UnsoldKey>, selectedCount: nat)
    ensures !(HeaderChecked(selectedCount, |keys|) && HeaderIndeterminate(selectedCount, |keys|))
    ensures keys != [] ==> HeaderChecked(|SelectAll(keys, true)|, |keys|)
    ensures !HeaderChecked(|SelectAll(keys, false)|, |keys|) &&
            !HeaderIndeterminate(|SelectAll(keys, false)|, |keys|)
  {
  }

  // ---------------------------------------------------------------------
  // Request parameters

  /** A query-parameter value: the page numbers are numbers, the filters text. */
  datatype Value = Num(n: int) | Text(s: string)

  /** The entries `fetchUnsoldKeys` keeps: every one whose value is not `''`. */
  function NonEmptyEntries(params: map<string, Value>): (r: map<string, Value>)
    ensures forall k :: k in r <==> k in params && params[k] != Text("")
    ensures forall k :: k in r ==> r[k] == params[k]
  {
    map k | k in params && params[k] != Text("") :: params[k]
  }

  /** The `Object.keys(params).forEach(...)` loop: visit every key once and
      `delete` the entries whose value is `''`. */
  method StripEmpty(params: map<string, Value>) returns (kept: map<string, Value>)
    ensures kept == NonEmptyEntries(params)
  {
    kept := params;
    var pending := params.Keys;
    while pending != {}
      invariant pending <= params.Keys
      invariant forall k :: k in kept <==> k in params && (k in pending || params[k] != Text(""))
      invariant forall k :: k in kept ==> kept[k] == params[k]
      decreases |pending|
    {
      var key :| key in pending;
      if kept[key] == Text("") {
        kept := kept - {key};
      }
      pending := pending - {key};
    }
  }

  /** Stripping leaves no empty entry behind, so stripping again changes
      nothing. */
  lemma StrippingIsIdempotent(params: map<string, Value>)
    ensures NonEmptyEntries(NonEmptyEntries(params)) == NonEmptyEntries(params)
  {
  }

  datatype Pagination = Pagination(currentPage: int, totalPages: int, totalItems: int,
                                   itemsPerPage: int, hasNext: bool, hasPrev: bool)

  datatype Filters = Filters(search: string, providerId: string, planId: string, duration: string,
                             minAmount: string, maxAmount: string, sortBy: string, sortOrder: string)

  const DefaultPagination := Pagination(1, 1, 0, 10, false, false)
  const DefaultFilters := Filters("", "", "", "", "", "", "created_at", "ASC")

  /** `{ page, limit, ...filters }` before the empty entries are removed. */
  function RequestParams(p: Pagination, f: Filters): map<string, Value> {
    map["page" := Num(p.currentPage), "limit" := Num(p.itemsPerPage),
        "search" := Text(f.search), "provider_id" := Text(f.providerId),
        "plan_id" := Text(f.planId), "duration" := Text(f.duration),
        "min_amount" := Text(f.minAmount), "max_amount" := Text(f.maxAmount),
        "sort_by" := Text(f.sortBy), "sort_order" := Text(f.sortOrder)]
  }

  /** The request always carries the page and the page size, and the search
      text exactly when it is not empty. */
  lemma SentPaging(p: Pagination, f: Filters)
    ensures var sent := NonEmptyEntries(RequestParams(p, f));
      sent["page"] == Num(p.currentPage) && sent["limit"] == Num(p.itemsPerPage) &&
      ("search" in sent <==> f.search != "") &&
      ("search" in sent ==> sent["search"] == Text(f.search))
  {
  }

  /** The request carries each of the other filters exactly when it is not
      empty. */
  lemma SentFilters(p: Pagination, f: Filters)
    ensures var sent := NonEmptyEntries(RequestParams(p, f));
      ("provider_id" in sent <==> f.providerId != "") &&
      ("plan_id" in sent <==> f.planId != "") &&
      ("duration" in sent <==> f.duration != "") &&
      ("min_amount" in sent <==> f.minAmount != "") &&
      ("max_amount" in sent <==> f.maxAmount != "")
  {
  }

  /** With the default filters the request carries the page, the page size
      and the two sort fields, nothing else. */
  lemma DefaultRequest(p: Pagination)
    ensures NonEmptyEntries(RequestParams(p, DefaultFilters)).Keys == {"page", "limit", "sort_by", "sort_order"}
  {
    var sent := NonEmptyEntries(RequestParams(p, DefaultFilters));
    assert "sort_by" in sent && "sort_order" in sent;
  }

  /** `handlePageChange`: the table's zero-based page, one-based in state. */
  function PageChange(p: Pagination, newPage: nat): (q: Pagination)
    ensures q.currentPage == newPage + 1 && q.currentPage >= 1
    ensures q.(currentPage := p.currentPage) == p
  {
    p.(currentPage := newPage + 1)
  }

  /** `handleRowsPerPageChange`: the new page size, back to page 1. */
  function RowsPerPageChange(p: Pagination, itemsPerPage: int): (q: Pagination)
    ensures q.itemsPerPage == itemsPerPage && q.currentPage == 1
    ensures q.(currentPage := p.currentPage, itemsPerPage := p.itemsPerPage) == p
  {
    p.(itemsPerPage := itemsPerPage, currentPage := 1)
  }

  // ---------------------------------------------------------------------
  // Delete

  /** The body of the bulk delete request. */
  datatype DeleteRequest = DeleteRequest(keyIds: seq<int>, providerId: int, planId: int, confirm: bool)

  const SelectAtLeastOneMessage := "Please select at least one key to delete"
  const DeleteFailedMessage := "Failed to delete keys"

  /** `keys.find(k => k.id === id)` over the table's rows: the first row with
      id `id` from `from` on, or -1. It is the same search as
      `Catalog.ProviderIndex`, written over this page's row record; a single
      generic search would need a key-extracting function parameter. */
  function RowIndex(keys: seq<UnsoldKey>, id: int, from: nat): (r: int)
    requires from <= |keys|
    ensures r == -1 || from <= r < |keys|
    ensures r == -1 <==> forall j :: from <= j < |keys| ==> keys[j].id != id
    ensures r != -1 ==> keys[r].id == id && forall j :: from <= j < r ==> keys[j].id != id
    decreases |keys| - from
  {
    if from == |keys| then -1
    else if keys[from].id == id then from
    else RowIndex(keys, id, from + 1)
  }

  /** `handleDeleteKeys` up to the request: nothing is sent for an empty
      selection; the provider and plan come from the row of the first
      selected id, and when that id is not on the current page the lookup
      throws and the generic failure message is shown. */
  function DeleteRequestFor(selectedKeys: seq<int>, keys: seq<UnsoldKey>): (r: Result<DeleteRequest, string>)
    ensures selectedKeys == [] ==> r == Err(SelectAtLeastOneMessage)
    ensures selectedKeys != [] ==> (r.Ok? <==> exists j :: 0 <= j < |keys| && keys[j].id == selectedKeys[0])
    ensures selectedKeys != [] && r.Err? ==> r.error == DeleteFailedMessage
    ensures r.Ok? ==> r.value.keyIds == selectedKeys && r.value.confirm
    ensures r.Ok? ==> (var first := RowIndex(keys, selectedKeys[0], 0);
      r.value.providerId == keys[first].providerId && r.value.planId == keys[first].planId)
  {
    if selectedKeys == [] then Err(SelectAtLeastOneMessage)
    else
      var first := RowIndex(keys, selectedKeys[0], 0);
      if first == -1 then Err(DeleteFailedMessage)
      else Ok(DeleteRequest(selectedKeys, keys[first].providerId, keys[first].planId, true))
  }

  function DeletedMessage(count: nat): string {
    "Successfully deleted " + DecimalString(count) + " key(s)"
  }

  /** The page's own state. */
  class UnsoldKeysPage {
    var keys: seq<UnsoldKey>
    var selectedKeys: seq<int>
    var pagination: Pagination
    var filters: Filters
    var deleteDialogOpen: bool
    var filterDialogOpen: bool
    var error: string
    var success: string

    constructor ()
      ensures keys == [] && selectedKeys == []
      ensures pagination == DefaultPagination && filters == DefaultFilters
      ensures !deleteDialogOpen && !filterDialogOpen && error == "" && success == ""
    {
      keys, selectedKeys := [], [];
      pagination, filters := DefaultPagination, DefaultFilters;
      deleteDialogOpen, filterDialogOpen := false, false;
      error, success := "", "";
    }

    /** The parameters `fetchUnsoldKeys` sends for the current state. */
    method FetchParams() returns (params: map<string, Value>)
      ensures params == NonEmptyEntries(RequestParams(pagination, filters))
    {
      params := StripEmpty(RequestParams(pagination, filters));
    }

    method SelectKey(id: int)
      modifies this
      ensures selectedKeys == ToggleSelection(old(selectedKeys), id)
      ensures keys == old(keys) && pagination == old(pagination) && filters == old(filters)
      ensures Distinct(old(selectedKeys)) ==> Distinct(selectedKeys)
      ensures deleteDialogOpen == old(deleteDialogOpen) && filterDialogOpen == old(filterDialogOpen)
      ensures error == old(error) && success == old(success)
    {
      if Distinct(selectedKeys) {
        ToggleKeepsDistinct(selectedKeys, id, id);
      }
      selectedKeys := ToggleSelection(selectedKeys, id);
    }

    method SelectAllClick(checked: bool)
      modifies this
      ensures selectedKeys == SelectAll(keys, checked)
      ensures keys == old(keys) && pagination == old(pagination) && filters == old(filters)
      ensures deleteDialogOpen == old(deleteDialogOpen) && filterDialogOpen == old(filterDialogOpen)
      ensures error == old(error) && success == old(success)
    {
      selectedKeys := SelectAll(keys, checked);
    }

    method HandlePageChange(newPage: nat)
      modifies this
      ensures pagination == PageChange(old(pagination), newPage)
      ensures selectedKeys == old(selectedKeys) && filters == old(filters) && keys == old(keys)
      ensures deleteDialogOpen == old(deleteDialogOpen) && filterDialogOpen == old(filterDialogOpen)
      ensures error == old(error) && success == old(success)
    {
      pagination := PageChange(pagination, newPage);
    }

    method HandleRowsPerPageChange(itemsPerPage: int)
      modifies this
      ensures pagination == RowsPerPageChange(old(pagination), itemsPerPage)
      ensures selectedKeys == old(selectedKeys) && filters == old(filters) && keys == old(keys)
      ensures deleteDialogOpen == old(deleteDialogOpen) && filterDialogOpen == old(filterDialogOpen)
      ensures error == old(error) && success == old(success)
    {
      pagination := RowsPerPageChange(pagination, itemsPerPage);
    }

    /** `resetFilters`: the default filter record, and the filter dialog
        closes. */
    method ResetFilters()
      modifies this
      ensures filters == DefaultFilters && !filterDialogOpen
      ensures pagination == old(pagination) && selectedKeys == old(selectedKeys) && keys == old(keys)
      ensures deleteDialogOpen == old(deleteDialogOpen) && error == old(error) && success == old(success)
    {
      filters := DefaultFilters;
      filterDialogOpen := false;
    }

    /** `handleDeleteKeys`: refuse an empty selection; otherwise clear the
        error, build the request (or fail on a missing first row), and on a
        successful reply report the count, close the dialog, clear the
        selection and ask for a refetch. */
    method HandleDelete(reply: Reply) returns (request: Option<DeleteRequest>, refetch: bool)
      modifies this
      ensures var r := DeleteRequestFor(old(selectedKeys), old(keys));
        request == if r.Ok? then Some(r.value) else None
      ensures refetch <==> request.Some? && reply == Answered(true)
      ensures old(selectedKeys) == [] ==> error == SelectAtLeastOneMessage && selectedKeys == old(selectedKeys)
      ensures old(selectedKeys) != [] && request.None? ==> error == DeleteFailedMessage && selectedKeys == old(selectedKeys)
      ensures refetch ==> success == DeletedMessage(|old(selectedKeys)|) && error == "" &&
                          !deleteDialogOpen && selectedKeys == []
      ensures request.Some? && reply == Answered(false) ==>
        error == "" && success == old(success) && selectedKeys == old(selectedKeys)
      ensures request.Some? && reply.Failed? ==>
        error == ErrorText(reply.serverError, DeleteFailedMessage) && selectedKeys == old(selectedKeys)
      ensures !refetch ==> deleteDialogOpen == old(deleteDialogOpen) && success == old(success)
      ensures keys == old(keys) && pagination == old(pagination) && filters == old(filters)
      ensures filterDialogOpen == old(filterDialogOpen)
    {
      refetch := false;
      if selectedKeys == [] {
        error := SelectAtLeastOneMessage;
        request := None;
        return;
      }
      error := "";
      var r := DeleteRequestFor(selectedKeys, keys);
      if r.Err? {
        error := r.error;
        request := None;
        return;
      }
      request := Some(r.value);
      match reply
      case Answered(ok) =>
        if ok {
          success := DeletedMessage(|selectedKeys|);
          deleteDialogOpen := false;
          selectedKeys := [];
          refetch := true;
        }
      case Failed(serverError) =>
        error := ErrorText(serverError, DeleteFailedMessage);
    }
  }
}
