/**
 * State of a project's expense list: one server page of expenses fetched
 * with the page, page size and sort, narrowed on the client by a title
 * search and a category, and the create/edit/delete outcomes.
 */
module UseProjectExpenses {
  import opened Common
  import opened Entities
  import JsText
  import Lists
  import QueryParams

  /** The lower-cased query occurs in the lower-cased title. */
  predicate TitleMatches(e: Expense, q: string)
  {
    JsText.Contains(JsText.ToLower(e.title), JsText.ToLower(q))
  }

  /**
   * `filtered`: the title search when the debounced query is set, then the
   * category when one is selected.
   */
  function FilterExpenses(expenses: seq<Expense>, q: string, categoryId: string): (r: seq<Expense>)
    ensures forall x :: x in r <==>
      x in expenses && (q != "" ==> TitleMatches(x, q)) && (categoryId != "" ==> x.categoryId == categoryId)
    ensures forall x ::
              multiset(r)[x] ==
                if (q != "" ==> TitleMatches(x, q)) && (categoryId != "" ==> x.categoryId == categoryId)
                then multiset(expenses)[x] else 0
    ensures Lists.IsSubsequence(r, expenses)
  {
    var byTitle := if q != "" then Lists.Filter(expenses, (e: Expense) => TitleMatches(e, q)) else expenses;
    var byCategory := if categoryId != "" then Lists.Filter(byTitle, (e: Expense) => e.categoryId == categoryId) else byTitle;
    FilterExpensesSubsequence(expenses, q, categoryId);
    byCategory
  }

  /**
   * Both filters only delete expenses: what is left keeps the fetched order,
   * and the two filters in a row are one filter by both conditions.
   */
  lemma FilterExpensesSubsequence(expenses: seq<Expense>, q: string, categoryId: string)
    ensures var byTitle := if q != "" then Lists.Filter(expenses, (e: Expense) => TitleMatches(e, q)) else expenses;
      var byCategory := if categoryId != "" then Lists.Filter(byTitle, (e: Expense) => e.categoryId == categoryId) else byTitle;
      && Lists.IsSubsequence(byCategory, expenses)
      && (q != "" && categoryId != "" ==>
            byCategory == Lists.Filter(expenses, (e: Expense) => TitleMatches(e, q) && e.categoryId == categoryId))
  {
    if q != "" && categoryId != "" {
      var both := (e: Expense) => TitleMatches(e, q) && e.categoryId == categoryId;
      Lists.FilterFilter(expenses, (e: Expense) => TitleMatches(e, q), (e: Expense) => e.categoryId == categoryId, both);
      Lists.FilterIsSubsequence(expenses, both);
    } else if q != "" {
      Lists.FilterIsSubsequence(expenses, (e: Expense) => TitleMatches(e, q));
    } else if categoryId != "" {
      Lists.FilterIsSubsequence(expenses, (e: Expense) => e.categoryId == categoryId);
    } else {
      Lists.SubsequenceRefl(expenses);
    }
  }

  const DefaultSort := "expenseDate:desc"
  const DefaultPageSize := 10

  class ExpensesState {
    var expenses: seq<Expense>
    var totalCount: int
    var loading: bool
    var page: int
    var pageSize: int
    var sort: string
    var query: string
    var debouncedQuery: string
    var selectedCategoryId: string

    constructor()
      ensures expenses == [] && totalCount == 0 && loading
      ensures page == 1 && pageSize == DefaultPageSize && sort == DefaultSort
      ensures query == "" && debouncedQuery == "" && selectedCategoryId == ""
    {
      expenses := [];
      totalCount := 0;
      loading := true;
      page := 1;
      pageSize := DefaultPageSize;
      sort := DefaultSort;
      query := "";
      debouncedQuery := "";
      selectedCategoryId := "";
    }

    /** The parameters `fetchExpenses` passes to `getExpenses`. */
    function FetchQuery(): QueryParams.ListQuery
      reads this
    {
      QueryParams.ServerListQuery(page, pageSize, sort)
    }

    function Filtered(): seq<Expense>
      reads this
    {
      FilterExpenses(expenses, debouncedQuery, selectedCategoryId)
    }

    /** A title search or a category is active. */
    predicate HasSearch()
      reads this
    {
      debouncedQuery != "" || selectedCategoryId != ""
    }

    /** The count the pagination shows: the filtered count while searching, the server's total otherwise. */
    function Total(): int
      reads this
    {
      if HasSearch() then |Filtered()| else totalCount
    }

    /** Without a search the fetched page is shown whole and counted by the server's total. */
    lemma NoSearchShowsPage()
      requires !HasSearch()
      ensures Filtered() == expenses && Total() == totalCount
    {
    }

    /** While searching, the count is that of the visible expenses, never more than the page holds. */
    lemma SearchCountsVisible()
      requires HasSearch()
      ensures Total() == |Filtered()| <= |expenses|
    {
      Lists.SubsequenceLength(Filtered(), expenses);
    }

    /**
     * `fetchExpenses` starts: loading is raised and the query for the current
     * page, size and sort is sent. It runs on mount, whenever one of those
     * three changes (the effect on the callback's dependencies), and after a
     * successful create or delete.
     */
    method FetchStarted() returns (q: QueryParams.ListQuery)
      modifies this
      ensures loading
      ensures q == QueryParams.ServerListQuery(page, pageSize, sort)
      ensures expenses == old(expenses) && totalCount == old(totalCount)
      ensures page == old(page) && pageSize == old(pageSize) && sort == old(sort)
      ensures query == old(query) && debouncedQuery == old(debouncedQuery)
      ensures selectedCategoryId == old(selectedCategoryId)
    {
      loading := true;
      q := FetchQuery();
    }

    /** A settled fetch stores the page and the total on success and leaves them on failure; loading ends. */
    method FetchSettled(outcome: Remote<PageOf<Expense>>)
      modifies this
      ensures !loading
      ensures outcome.Ok? ==> expenses == outcome.value.items && totalCount == outcome.value.totalCount
      ensures outcome.Fail? ==> expenses == old(expenses) && totalCount == old(totalCount)
      ensures page == old(page) && pageSize == old(pageSize) && sort == old(sort)
      ensures query == old(query) && debouncedQuery == old(debouncedQuery)
      ensures selectedCategoryId == old(selectedCategoryId)
    {
      if outcome.Ok? {
        expenses := outcome.value.items;
        totalCount := outcome.value.totalCount;
      }
      loading := false;
    }

    /** A created expense is not inserted locally: the list is fetched again, and only on success. */
    method CreateSettled(outcome: Remote<Expense>) returns (refetch: bool)
      ensures refetch <==> outcome.Ok?
    {
      refetch := outcome.Ok?;
    }

    /** An update replaces exactly the expenses with that id; the others and the length stay. */
    method EditSettled(id: string, outcome: Remote<Expense>)
      modifies this
      ensures |expenses| == |old(expenses)|
      ensures outcome.Ok? ==>
        forall i :: 0 <= i < |expenses| ==>
          expenses[i] == if old(expenses)[i].id == id then outcome.value else old(expenses)[i]
      ensures outcome.Fail? ==> expenses == old(expenses)
      ensures totalCount == old(totalCount) && loading == old(loading)
      ensures page == old(page) && pageSize == old(pageSize) && sort == old(sort)
      ensures query == old(query) && debouncedQuery == old(debouncedQuery)
      ensures selectedCategoryId == old(selectedCategoryId)
    {
      if outcome.Ok? {
        expenses := Lists.ReplaceWhere(expenses, (e: Expense) => e.id == id, outcome.value);
      }
    }

    /** A deleted expense is not removed locally: the list is fetched again, and only on success. */
    method DeleteSettled(outcome: Remote<()>) returns (refetch: bool)
      ensures refetch <==> outcome.Ok?
    {
      refetch := outcome.Ok?;
    }

    /** `setPage`; the fetch runs again exactly when the page differs from the current one. */
    method SetPage(p: int) returns (refetch: bool)
      modifies this
      ensures page == p
      ensures refetch <==> p != old(page)
      ensures expenses == old(expenses) && totalCount == old(totalCount) && loading == old(loading)
      ensures pageSize == old(pageSize) && sort == old(sort)
      ensures query == old(query) && debouncedQuery == old(debouncedQuery)
      ensures selectedCategoryId == old(selectedCategoryId)
    {
      refetch := p != page;
      page := p;
    }

    /** A new page size starts again from page 1; the fetch runs again when the size or the page changed. */
    method PageSizeChanged(size: int) returns (refetch: bool)
      modifies this
      ensures pageSize == size && page == 1
      ensures refetch <==> size != old(pageSize) || old(page) != 1
      ensures expenses == old(expenses) && totalCount == old(totalCount) && loading == old(loading)
      ensures sort == old(sort) && query == old(query) && debouncedQuery == old(debouncedQuery)
      ensures selectedCategoryId == old(selectedCategoryId)
    {
      refetch := size != pageSize || page != 1;
      pageSize := size;
      page := 1;
    }

    /** A new sort starts again from page 1; the fetch runs again when the sort or the page changed. */
    method SortChanged(s: string) returns (refetch: bool)
      modifies this
      ensures sort == s && page == 1
      ensures refetch <==> s != old(sort) || old(page) != 1
      ensures expenses == old(expenses) && totalCount == old(totalCount) && loading == old(loading)
      ensures pageSize == old(pageSize) && query == old(query) && debouncedQuery == old(debouncedQuery)
      ensures selectedCategoryId == old(selectedCategoryId)
    {
      refetch := s != sort || page != 1;
      sort := s;
      page := 1;
    }

    method SetQuery(q: string)
      modifies this
      ensures query == q
      ensures expenses == old(expenses) && totalCount == old(totalCount) && loading == old(loading)
      ensures page == old(page) && pageSize == old(pageSize) && sort == old(sort)
      ensures debouncedQuery == old(debouncedQuery) && selectedCategoryId == old(selectedCategoryId)
    {
      query := q;
    }

    /** The debounce timer fired: the typed query takes effect; the page is kept. */
    method DebounceFired()
      modifies this
      ensures debouncedQuery == old(query)
      ensures expenses == old(expenses) && totalCount == old(totalCount) && loading == old(loading)
      ensures page == old(page) && pageSize == old(pageSize) && sort == old(sort)
      ensures query == old(query) && selectedCategoryId == old(selectedCategoryId)
    {
      debouncedQuery := query;
    }

    /** Selecting a category (or "" for none) keeps the page. */
    method SetCategory(id: string)
      modifies this
      ensures selectedCategoryId == id
      ensures expenses == old(expenses) && totalCount == old(totalCount) && loading == old(loading)
      ensures page == old(page) && pageSize == old(pageSize) && sort == old(sort)
      ensures query == old(query) && debouncedQuery == old(debouncedQuery)
    {
      selectedCategoryId := id;
    }
  }
}
