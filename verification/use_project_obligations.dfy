/**
 * State of a project's obligation list: one server page of obligations
 * fetched with the page, page size and sort, narrowed on the client by a
 * status filter, and the create/edit/delete outcomes.
 */
module UseProjectObligations {
  import opened Common
  import opened Obligations
  import Lists
  import QueryParams

  /** The status filter: every status, or exactly one. */
  datatype StatusFilter = AllStatuses | Only(status: ObligationStatus)

  /**
   * `filtered`: the list itself under "all", otherwise exactly the
   * obligations with the chosen status, in their order.
   */
  function FilterObligations(obligations: seq<ObligationResponse>, filter: StatusFilter): (r: seq<ObligationResponse>)
    ensures filter.AllStatuses? ==> r == obligations
    ensures forall x :: x in r <==> x in obligations && (filter.Only? ==> x.status == filter.status)
    ensures forall x ::
              multiset(r)[x] == if filter.Only? && x.status != filter.status then 0 else multiset(obligations)[x]
    ensures Lists.IsSubsequence(r, obligations)
  {
    match filter
    case AllStatuses =>
      Lists.SubsequenceRefl(obligations);
      obligations
    case Only(s) =>
      Lists.FilterIsSubsequence(obligations, (o: ObligationResponse) => o.status == s);
      Lists.Filter(obligations, (o: ObligationResponse) => o.status == s)
  }

  const DefaultSort := "dueDate:asc"
  const DefaultPageSize := 10

  class ObligationsState {
    var obligations: seq<ObligationResponse>
    var totalCount: int
    var loading: bool
    var page: int
    var pageSize: int
    var sort: string
    var statusFilter: StatusFilter

    constructor()
      ensures obligations == [] && totalCount == 0 && loading
      ensures page == 1 && pageSize == DefaultPageSize && sort == DefaultSort
      ensures statusFilter == AllStatuses
    {
      obligations := [];
      totalCount := 0;
      loading := true;
      page := 1;
      pageSize := DefaultPageSize;
      sort := DefaultSort;
      statusFilter := AllStatuses;
    }

    /** The parameters `fetchObligations` passes to `getObligations`. */
    function FetchQuery(): QueryParams.ListQuery
      reads this
    {
      QueryParams.ServerListQuery(page, pageSize, sort)
    }

    function Filtered(): seq<ObligationResponse>
      reads this
    {
      FilterObligations(obligations, statusFilter)
    }

    /** A status other than "all" is selected. */
    predicate HasFilter()
      reads this
    {
      statusFilter != AllStatuses
    }

    /** The count the pagination shows: the filtered count under a filter, the server's total otherwise. */
    function Total(): int
      reads this
    {
      if HasFilter() then |Filtered()| else totalCount
    }

    /** Without a filter the fetched page is shown whole and counted by the server's total. */
    lemma NoFilterShowsPage()
      requires !HasFilter()
      ensures Filtered() == obligations && Total() == totalCount
    {
    }

    /** Under a filter, the count is that of the visible obligations, never more than the page holds. */
    lemma FilterCountsVisible()
      requires HasFilter()
      ensures Total() == |Filtered()| <= |obligations|
    {
      Lists.SubsequenceLength(Filtered(), obligations);
    }

    /**
     * `fetchObligations` starts: loading is raised and the query for the
     * current page, size and sort is sent. It runs on mount, whenever one of
     * those three changes (the effect on the callback's dependencies), and
     * after a successful create or delete.
     */
    method FetchStarted() returns (q: QueryParams.ListQuery)
      modifies this
      ensures loading
      ensures q == QueryParams.ServerListQuery(page, pageSize, sort)
      ensures obligations == old(obligations) && totalCount == old(totalCount)
      ensures page == old(page) && pageSize == old(pageSize) && sort == old(sort)
      ensures statusFilter == old(statusFilter)
    {
      loading := true;
      q := FetchQuery();
    }

    /** A settled fetch stores the page and the total on success and leaves them on failure; loading ends. */
    method FetchSettled(outcome: Remote<PageOf<ObligationResponse>>)
      modifies this
      ensures !loading
      ensures outcome.Ok? ==> obligations == outcome.value.items && totalCount == outcome.value.totalCount
      ensures outcome.Fail? ==> obligations == old(obligations) && totalCount == old(totalCount)
      ensures page == old(page) && pageSize == old(pageSize) && sort == old(sort)
      ensures statusFilter == old(statusFilter)
    {
      if outcome.Ok? {
        obligations := outcome.value.items;
        totalCount := outcome.value.totalCount;
      }
      loading := false;
    }

    /** A created obligation is not inserted locally: the list is fetched again, and only on success. */
    method CreateSettled(outcome: Remote<ObligationResponse>) returns (refetch: bool)
      ensures refetch <==> outcome.Ok?
    {
      refetch := outcome.Ok?;
    }

    /** An update replaces exactly the obligations with that id; the others and the length stay. */
    method EditSettled(id: string, outcome: Remote<ObligationResponse>)
      modifies this
      ensures |obligations| == |old(obligations)|
      ensures outcome.Ok? ==>
        forall i :: 0 <= i < |obligations| ==>
          obligations[i] == if old(obligations)[i].id == id then outcome.value else old(obligations)[i]
      ensures outcome.Fail? ==> obligations == old(obligations)
      ensures totalCount == old(totalCount) && loading == old(loading)
      ensures page == old(page) && pageSize == old(pageSize) && sort == old(sort)
      ensures statusFilter == old(statusFilter)
    {
      if outcome.Ok? {
        obligations := Lists.ReplaceWhere(obligations, (o: ObligationResponse) => o.id == id, outcome.value);
      }
    }

    /** A deleted obligation is not removed locally: the list is fetched again, and only on success. */
    method DeleteSettled(outcome: Remote<()>) returns (refetch: bool)
      ensures refetch <==> outcome.Ok?
    {
      refetch := outcome.Ok?;
    }

    /** `setPage`; the fetch runs again exactly when the page differs from the current one. */
    method SetPage(p: int) returns (refetch: bool)
      modifies this
      ensures page == p
      ensures refetch <==> p != old(page)
      ensures obligations == old(obligations) && totalCount == old(totalCount) && loading == old(loading)
      ensures pageSize == old(pageSize) && sort == old(sort) && statusFilter == old(statusFilter)
    {
      refetch := p != page;
      page := p;
    }

    /** A new page size starts again from page 1; the fetch runs again when the size or the page changed. */
    method PageSizeChanged(size: int) returns (refetch: bool)
      modifies this
      ensures pageSize == size && page == 1
      ensures refetch <==> size != old(pageSize) || old(page) != 1
      ensures obligations == old(obligations) && totalCount == old(totalCount) && loading == old(loading)
      ensures sort == old(sort) && statusFilter == old(statusFilter)
    {
      refetch := size != pageSize || page != 1;
      pageSize := size;
      page := 1;
    }

    /** A new sort starts again from page 1; the fetch runs again when the sort or the page changed. */
    method SortChanged(s: string) returns (refetch: bool)
      modifies this
      ensures sort == s && page == 1
      ensures refetch <==> s != old(sort) || old(page) != 1
      ensures obligations == old(obligations) && totalCount == old(totalCount) && loading == old(loading)
      ensures pageSize == old(pageSize) && statusFilter == old(statusFilter)
    {
      refetch := s != sort || page != 1;
      sort := s;
      page := 1;
    }

    /** A new status filter starts again from page 1; the filter is applied locally, so only a page change fetches again. */
    method StatusFilterChanged(f: StatusFilter) returns (refetch: bool)
      modifies this
      ensures statusFilter == f && page == 1
      ensures refetch <==> old(page) != 1
      ensures obligations == old(obligations) && totalCount == old(totalCount) && loading == old(loading)
      ensures pageSize == old(pageSize) && sort == old(sort)
    {
      refetch := page != 1;
      statusFilter := f;
      page := 1;
    }
  }
}
