/**
 * State of the projects list view: the fetched projects, the search,
 * currency and sort settings, the page, and how the create/edit/delete
 * outcomes update the list in place. Filtering, sorting and paging are
 * derived from that state.
 */
module UseProjects {
  import opened Common
  import opened Entities
  import JsText
  import Lists
  import SortKeys
  import ProjectsPagination

  /**
   * An empty query matches everything; otherwise the lower-cased query
   * must occur in the lower-cased name or, when present, description.
   */
  predicate MatchesQuery(p: Project, q: string)
  {
    q == [] ||
    var lower := JsText.ToLower(q);
    JsText.Contains(JsText.ToLower(p.name), lower) ||
    (p.description.Some? && JsText.Contains(JsText.ToLower(p.description.value), lower))
  }

  /** Matching ignores letter case in the query and finds a project by its own name. */
  lemma MatchesQueryCaseless(p: Project, q: string)
    ensures MatchesQuery(p, q) <==> MatchesQuery(p, JsText.ToLower(q))
    ensures MatchesQuery(p, p.name)
  {
    JsText.ToLowerIdempotent(q);
    JsText.ContainsSelf(JsText.ToLower(p.name));
  }

  /** The currency filter: "all" lets every project through. */
  predicate InCurrency(p: Project, currency: string)
  {
    currency == "all" || p.currencyCode == currency
  }

  /**
   * The comparator for a sort string: names by the collation `collate`
   * (standing for `localeCompare`), the two timestamps by difference, the
   * sign flipped unless the direction is "asc". Any other field compares
   * every pair as equal, as `Array.prototype.sort` treats the NaN that
   * subtracting two invalid dates gives.
   */
  function Compare(sort: string, collate: (string, string) -> int, a: Project, b: Project): int
  {
    var field := SortKeys.SortField(sort);
    var mult := SortKeys.Multiplier(sort);
    if field == "name" then collate(a.name, b.name) * mult
    else if field == "createdAt" then (a.createdAt - b.createdAt) * mult
    else if field == "updatedAt" then (a.updatedAt - b.updatedAt) * mult
    else 0
  }

  /** A collation that answers consistently for swapped arguments makes the comparator consistent too. */
  lemma CompareAntisymmetric(sort: string, collate: (string, string) -> int)
    requires forall x, y :: collate(x, y) > 0 <==> collate(y, x) < 0
    ensures Lists.Antisymmetric(Comparator(sort, collate))
  {
  }

  /** Sorting a field descending orders every pair the opposite way from ascending. */
  lemma DescReversesAsc(field: string, collate: (string, string) -> int, a: Project, b: Project)
    requires ':' !in field
    ensures Compare(field + ":desc", collate, a, b) == -Compare(field + ":asc", collate, a, b)
  {
    SortKeys.DescNegatesAsc(field);
  }

  /** `comparator(sort)` as a function value. */
  function Comparator(sort: string, collate: (string, string) -> int): (Project, Project) -> int
  {
    (a, b) => Compare(sort, collate, a, b)
  }

  /** The initial sort, newest update first. */
  const DefaultSort := "updatedAt:desc"
  const DefaultPageSize := 12
  const LoadFailed := "Error al cargar proyectos"

  class ProjectsState {
    var projects: seq<Project>
    var loading: bool
    var error: Option<string>
    var page: int
    var pageSize: int
    var query: string
    var debouncedQuery: string
    var currency: string
    var sort: string

    constructor()
      ensures projects == [] && loading && error == None
      ensures page == 1 && pageSize == DefaultPageSize
      ensures query == "" && debouncedQuery == "" && currency == "all" && sort == DefaultSort
    {
      projects := [];
      loading := true;
      error := None;
      page := 1;
      pageSize := DefaultPageSize;
      query := "";
      debouncedQuery := "";
      currency := "all";
      sort := DefaultSort;
    }

    /** `filtered`: the search, then the currency filter, then the stable sort. */
    function Filtered(collate: (string, string) -> int): seq<Project>
      reads this
    {
      var q := debouncedQuery;
      var c := currency;
      var byQuery := if q != "" then Lists.Filter(projects, (p: Project) => MatchesQuery(p, q)) else projects;
      var byCurrency := if c != "all" then Lists.Filter(byQuery, (p: Project) => p.currencyCode == c) else byQuery;
      Lists.SortBy(byCurrency, Comparator(sort, collate))
    }

    /**
     * The filtered list holds exactly the projects that match the debounced
     * query and the currency, each as many times as `projects` does.
     */
    lemma FilteredExactly(collate: (string, string) -> int)
      ensures var r := Filtered(collate);
        && (forall x :: x in r <==> x in projects && MatchesQuery(x, debouncedQuery) && InCurrency(x, currency))
        && (forall x :: multiset(r)[x] == (if MatchesQuery(x, debouncedQuery) && InCurrency(x, currency) then multiset(projects)[x] else 0))
    {
      var q := debouncedQuery;
      var c := currency;
      var byQuery := if q != "" then Lists.Filter(projects, (p: Project) => MatchesQuery(p, q)) else projects;
      var byCurrency := if c != "all" then Lists.Filter(byQuery, (p: Project) => p.currencyCode == c) else byQuery;
      Lists.SameElements(Filtered(collate), byCurrency);
    }

    /** The number of projects the search leaves. */
    function Total(collate: (string, string) -> int): (r: nat)
      reads this
      ensures r <= |projects|
    {
      FilteredCount(collate);
      |Filtered(collate)|
    }

    lemma FilteredCount(collate: (string, string) -> int)
      ensures |Filtered(collate)| <= |projects|
    {
      FilteredExactly(collate);
      var f := Filtered(collate);
      assert multiset(f) <= multiset(projects);
      assert |multiset(f)| <= |multiset(projects)|;
    }

    /** The projects of the current page, taken in order from the filtered list. */
    function Paged(collate: (string, string) -> int): (r: seq<Project>)
      reads this
    {
      Lists.Page(Filtered(collate), page, pageSize)
    }

    /** Position in the filtered list of the page's first project and one less than the pagination caption's start. */
    function GlobalIndex(): (r: int)
      reads this
      ensures r + 1 == ProjectsPagination.RangeStart(page, pageSize)
      ensures page >= 1 && pageSize >= 0 ==> r >= 0
    {
      (page - 1) * pageSize
    }

    /** A search or a currency filter is active. */
    function HasSearch(): (r: bool)
      reads this
      ensures r <==> !(debouncedQuery == "" && currency == "all")
    {
      debouncedQuery != "" || currency != "all"
    }

    /** Without a search or a currency nothing is hidden: the filtered list is a reordering of all projects. */
    lemma NoSearchShowsAll(collate: (string, string) -> int)
      requires !HasSearch()
      ensures multiset(Filtered(collate)) == multiset(projects)
    {
      FilteredExactly(collate);
      assert forall x :: multiset(Filtered(collate))[x] == multiset(projects)[x];
    }

    /** With a consistent collation the filtered list has no neighbours out of order. */
    lemma FilteredSorted(collate: (string, string) -> int)
      requires forall x, y :: collate(x, y) > 0 <==> collate(y, x) < 0
      ensures Lists.Sorted(Filtered(collate), Comparator(sort, collate))
    {
      var q := debouncedQuery;
      var c := currency;
      var byQuery := if q != "" then Lists.Filter(projects, (p: Project) => MatchesQuery(p, q)) else projects;
      var byCurrency := if c != "all" then Lists.Filter(byQuery, (p: Project) => p.currencyCode == c) else byQuery;
      CompareAntisymmetric(sort, collate);
      Lists.SortBySorted(byCurrency, Comparator(sort, collate));
    }

    /**
     * `fetchProjects` starts: the error shown is cleared before the request is
     * awaited, so none is shown while it runs. Loading is not raised again;
     * it starts true and is only lowered when a fetch settles.
     */
    method FetchStarted()
      modifies this
      ensures error == None
      ensures projects == old(projects) && loading == old(loading)
      ensures page == old(page) && pageSize == old(pageSize) && query == old(query)
      ensures debouncedQuery == old(debouncedQuery) && currency == old(currency) && sort == old(sort)
    {
      error := None;
    }

    /** The initial load settled: the list or the error message is stored, and loading ends either way. */
    method FetchSettled(outcome: Remote<seq<Project>>)
      modifies this
      ensures !loading
      ensures outcome.Ok? ==> projects == outcome.value && error == None
      ensures outcome.Fail? ==>
        projects == old(projects) && error == Some(FailureMessage(outcome.failure, LoadFailed))
      ensures page == old(page) && pageSize == old(pageSize) && query == old(query)
      ensures debouncedQuery == old(debouncedQuery) && currency == old(currency) && sort == old(sort)
    {
      error := None;
      match outcome {
        case Ok(data) => projects := data;
        case Fail(f) => error := Some(FailureMessage(f, LoadFailed));
      }
      loading := false;
    }

    method SetQuery(q: string)
      modifies this
      ensures query == q
      ensures projects == old(projects) && page == old(page) && debouncedQuery == old(debouncedQuery)
      ensures pageSize == old(pageSize) && currency == old(currency) && sort == old(sort)
      ensures loading == old(loading) && error == old(error)
    {
      query := q;
    }

    /** The debounce timer fired: the typed query takes effect and the view returns to page 1. */
    method DebounceFired()
      modifies this
      ensures debouncedQuery == old(query) && page == 1
      ensures projects == old(projects) && query == old(query)
      ensures pageSize == old(pageSize) && currency == old(currency) && sort == old(sort)
      ensures loading == old(loading) && error == old(error)
    {
      debouncedQuery := query;
      page := 1;
    }

    /** A created project goes first in the list and the view returns to page 1; a failure changes nothing. */
    method CreateSettled(outcome: Remote<Project>)
      modifies this
      ensures outcome.Ok? ==> projects == [outcome.value] + old(projects) && page == 1
      ensures outcome.Fail? ==> projects == old(projects) && page == old(page)
      ensures pageSize == old(pageSize) && query == old(query) && debouncedQuery == old(debouncedQuery)
      ensures currency == old(currency) && sort == old(sort) && loading == old(loading) && error == old(error)
    {
      if outcome.Ok? {
        projects := [outcome.value] + projects;
        page := 1;
      }
    }

    /** An update replaces exactly the projects with that id; the others and the length stay. */
    method EditSettled(id: string, outcome: Remote<Project>)
      modifies this
      ensures |projects| == |old(projects)|
      ensures outcome.Ok? ==>
        forall i :: 0 <= i < |projects| ==>
          projects[i] == if old(projects)[i].id == id then outcome.value else old(projects)[i]
      ensures outcome.Fail? ==> projects == old(projects)
      ensures page == old(page) && pageSize == old(pageSize) && query == old(query)
      ensures debouncedQuery == old(debouncedQuery) && currency == old(currency) && sort == old(sort)
      ensures loading == old(loading) && error == old(error)
    {
      if outcome.Ok? {
        projects := Lists.ReplaceWhere(projects, (p: Project) => p.id == id, outcome.value);
      }
    }

    /** A deletion removes exactly the projects with the target's id and keeps the rest in order. */
    method DeleteSettled(target: Project, outcome: Remote<()>)
      modifies this
      ensures outcome.Ok? ==>
        && (forall x :: x in projects <==> x in old(projects) && x.id != target.id)
        && Lists.IsSubsequence(projects, old(projects))
        && (forall x :: multiset(projects)[x] == if x.id != target.id then multiset(old(projects))[x] else 0)
      ensures outcome.Fail? ==> projects == old(projects)
      ensures page == old(page) && pageSize == old(pageSize) && query == old(query)
      ensures debouncedQuery == old(debouncedQuery) && currency == old(currency) && sort == old(sort)
      ensures loading == old(loading) && error == old(error)
    {
      if outcome.Ok? {
        Lists.FilterIsSubsequence(projects, (p: Project) => p.id != target.id);
        projects := Lists.Filter(projects, (p: Project) => p.id != target.id);
      }
    }

    method SetPage(p: int)
      modifies this
      ensures page == p
      ensures projects == old(projects) && pageSize == old(pageSize) && query == old(query)
      ensures debouncedQuery == old(debouncedQuery) && currency == old(currency) && sort == old(sort)
      ensures loading == old(loading) && error == old(error)
    {
      page := p;
    }

    /** A new page size starts again from page 1. */
    method PageSizeChanged(size: int)
      modifies this
      ensures pageSize == size && page == 1
      ensures projects == old(projects) && query == old(query)
      ensures debouncedQuery == old(debouncedQuery) && currency == old(currency) && sort == old(sort)
      ensures loading == old(loading) && error == old(error)
    {
      pageSize := size;
      page := 1;
    }

    /** A new currency filter starts again from page 1. */
    method CurrencyChanged(c: string)
      modifies this
      ensures currency == c && page == 1
      ensures projects == old(projects) && pageSize == old(pageSize) && query == old(query)
      ensures debouncedQuery == old(debouncedQuery) && sort == old(sort)
      ensures loading == old(loading) && error == old(error)
    {
      currency := c;
      page := 1;
    }

    /** A new sort starts again from page 1. */
    method SortChanged(s: string)
      modifies this
      ensures sort == s && page == 1
      ensures projects == old(projects) && pageSize == old(pageSize) && query == old(query)
      ensures debouncedQuery == old(debouncedQuery) && currency == old(currency)
      ensures loading == old(loading) && error == old(error)
    {
      sort := s;
      page := 1;
    }
  }
}
