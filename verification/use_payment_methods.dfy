/**
 * State of the payment methods view: the fetched payment methods, the
 * search, type filter and sort settings, the page, and how the
 * create/edit/delete outcomes update the list in place. Filtering,
 * sorting and paging are derived from that state.
 */
module UsePaymentMethods {
  import opened Common
  import opened Entities
  import JsText
  import Lists
  import SortKeys

  /**
   * An empty query matches everything; otherwise the lower-cased query
   * must occur in the lower-cased name or, when present, the bank name or
   * the description.
   */
  predicate MatchesQuery(p: PaymentMethod, q: string)
  {
    q == [] ||
    var lower := JsText.ToLower(q);
    JsText.Contains(JsText.ToLower(p.name), lower) ||
    (p.bankName.Some? && JsText.Contains(JsText.ToLower(p.bankName.value), lower)) ||
    (p.description.Some? && JsText.Contains(JsText.ToLower(p.description.value), lower))
  }

  /** Matching ignores letter case in the query and finds a payment method by its own name. */
  lemma MatchesQueryCaseless(p: PaymentMethod, q: string)
    ensures MatchesQuery(p, q) <==> MatchesQuery(p, JsText.ToLower(q))
    ensures MatchesQuery(p, p.name)
  {
    JsText.ToLowerIdempotent(q);
    JsText.ContainsSelf(JsText.ToLower(p.name));
  }

  /** The type filter: "all" lets every payment method through, otherwise the wire name of the type must match. */
  predicate OfType(p: PaymentMethod, typeFilter: string)
  {
    typeFilter == "all" || KindName(p.kind) == typeFilter
  }

  /**
   * The comparator for a sort string: names by the collation `collate`
   * (standing for `localeCompare`), the two timestamps by difference, the
   * sign flipped unless the direction is "asc". Any other field compares
   * every pair as equal, as `Array.prototype.sort` treats the NaN that
   * subtracting two invalid dates gives.
   */
  function Compare(sort: string, collate: (string, string) -> int, a: PaymentMethod, b: PaymentMethod): int
  {
    var field := SortKeys.SortField(sort);
    var mult := SortKeys.Multiplier(sort);
    if field == "name" then collate(a.name, b.name) * mult
    else if field == "createdAt" then (a.createdAt - b.createdAt) * mult
    else if field == "updatedAt" then (a.updatedAt - b.updatedAt) * mult
    else 0
  }

  /** A collation that answers consistently for swapped arguments makes the comparator consistent too. */
  lemma CompareAntisymmetric(sort: string, collate: (string, string) -> int)
    requires forall x, y :: collate(x, y) > 0 <==> collate(y, x) < 0
    ensures Lists.Antisymmetric(Comparator(sort, collate))
  {
  }

  /** Sorting a field descending orders every pair the opposite way from ascending. */
  lemma DescReversesAsc(field: string, collate: (string, string) -> int, a: PaymentMethod, b: PaymentMethod)
    requires ':' !in field
    ensures Compare(field + ":desc", collate, a, b) == -Compare(field + ":asc", collate, a, b)
  {
    SortKeys.DescNegatesAsc(field);
  }

  /** `comparator(sort)` as a function value. */
  function Comparator(sort: string, collate: (string, string) -> int): (PaymentMethod, PaymentMethod) -> int
  {
    (a, b) => Compare(sort, collate, a, b)
  }

  /** The initial sort, newest update first. */
  const DefaultSort := "updatedAt:desc"
  const DefaultPageSize := 12
  const LoadFailed := "Error al cargar métodos de pago"

  class PaymentMethodsState {
    var paymentMethods: seq<PaymentMethod>
    var loading: bool
    var error: Option<string>
    var page: int
    var pageSize: int
    var query: string
    var debouncedQuery: string
    var typeFilter: string
    var sort: string

    constructor()
      ensures paymentMethods == [] && loading && error == None
      ensures page == 1 && pageSize == DefaultPageSize
      ensures query == "" && debouncedQuery == "" && typeFilter == "all" && sort == DefaultSort
    {
      paymentMethods := [];
      loading := true;
      error := None;
      page := 1;
      pageSize := DefaultPageSize;
      query := "";
      debouncedQuery := "";
      typeFilter := "all";
      sort := DefaultSort;
    }

    /** `filtered`: the search, then the type filter, then the stable sort. */
    function Filtered(collate: (string, string) -> int): seq<PaymentMethod>
      reads this
    {
      var q := debouncedQuery;
      var t := typeFilter;
      var byQuery := if q != "" then Lists.Filter(paymentMethods, (p: PaymentMethod) => MatchesQuery(p, q)) else paymentMethods;
      var byType := if t != "all" then Lists.Filter(byQuery, (p: PaymentMethod) => KindName(p.kind) == t) else byQuery;
      Lists.SortBy(byType, Comparator(sort, collate))
    }

    /**
     * The filtered list holds exactly the paymentMethods that match the debounced
     * query and the type filter, each as many times as `paymentMethods` does.
     */
    lemma FilteredExactly(collate: (string, string) -> int)
      ensures var r := Filtered(collate);
        && (forall x :: x in r <==> x in paymentMethods && MatchesQuery(x, debouncedQuery) && OfType(x, typeFilter))
        && (forall x :: multiset(r)[x] == (if MatchesQuery(x, debouncedQuery) && OfType(x, typeFilter) then multiset(paymentMethods)[x] else 0))
    {
      var q := debouncedQuery;
      var t := typeFilter;
      var byQuery := if q != "" then Lists.Filter(paymentMethods, (p: PaymentMethod) => MatchesQuery(p, q)) else paymentMethods;
      var byType := if t != "all" then Lists.Filter(byQuery, (p: PaymentMethod) => KindName(p.kind) == t) else byQuery;
      Lists.SameElements(Filtered(collate), byType);
    }

    /** The number of paymentMethods the search leaves. */
    function Total(collate: (string, string) -> int): (r: nat)
      reads this
      ensures r <= |paymentMethods|
    {
      FilteredCount(collate);
      |Filtered(collate)|
    }

    lemma FilteredCount(collate: (string, string) -> int)
      ensures |Filtered(collate)| <= |paymentMethods|
    {
      FilteredExactly(collate);
      var f := Filtered(collate);
      assert multiset(f) <= multiset(paymentMethods);
      assert |multiset(f)| <= |multiset(paymentMethods)|;
    }

    /** The paymentMethods of the current page, taken in order from the filtered list. */
    function Paged(collate: (string, string) -> int): (r: seq<PaymentMethod>)
      reads this
    {
      Lists.Page(Filtered(collate), page, pageSize)
    }

    /** Position in the filtered list of the page's first payment method. */
    function GlobalIndex(): (r: int)
      reads this
      ensures page >= 1 && pageSize >= 0 ==> r >= 0
    {
      (page - 1) * pageSize
    }

    /** A search or a type filter is active. */
    function HasSearch(): (r: bool)
      reads this
      ensures r <==> !(debouncedQuery == "" && typeFilter == "all")
    {
      debouncedQuery != "" || typeFilter != "all"
    }

    /** Without a search or a type filter nothing is hidden: the filtered list is a reordering of all payment methods. */
    lemma NoSearchShowsAll(collate: (string, string) -> int)
      requires !HasSearch()
      ensures multiset(Filtered(collate)) == multiset(paymentMethods)
    {
      FilteredExactly(collate);
      assert forall x :: multiset(Filtered(collate))[x] == multiset(paymentMethods)[x];
    }

    /** With a consistent collation the filtered list has no neighbours out of order. */
    lemma FilteredSorted(collate: (string, string) -> int)
      requires forall x, y :: collate(x, y) > 0 <==> collate(y, x) < 0
      ensures Lists.Sorted(Filtered(collate), Comparator(sort, collate))
    {
      var q := debouncedQuery;
      var t := typeFilter;
      var byQuery := if q != "" then Lists.Filter(paymentMethods, (p: PaymentMethod) => MatchesQuery(p, q)) else paymentMethods;
      var byType := if t != "all" then Lists.Filter(byQuery, (p: PaymentMethod) => KindName(p.kind) == t) else byQuery;
      CompareAntisymmetric(sort, collate);
      Lists.SortBySorted(byType, Comparator(sort, collate));
    }

    /**
     * `fetchPaymentMethods` starts: the error shown is cleared before the
     * request is awaited, so none is shown while it runs. Loading is not
     * raised again; it starts true and is only lowered when a fetch settles.
     */
    method FetchStarted()
      modifies this
      ensures error == None
      ensures paymentMethods == old(paymentMethods) && loading == old(loading)
      ensures page == old(page) && pageSize == old(pageSize) && query == old(query)
      ensures debouncedQuery == old(debouncedQuery) && typeFilter == old(typeFilter) && sort == old(sort)
    {
      error := None;
    }

    /** The initial load settled: the list or the error message is stored, and loading ends either way. */
    method FetchSettled(outcome: Remote<seq<PaymentMethod>>)
      modifies this
      ensures !loading
      ensures outcome.Ok? ==> paymentMethods == outcome.value && error == None
      ensures outcome.Fail? ==>
        paymentMethods == old(paymentMethods) && error == Some(FailureMessage(outcome.failure, LoadFailed))
      ensures page == old(page) && pageSize == old(pageSize) && query == old(query)
      ensures debouncedQuery == old(debouncedQuery) && typeFilter == old(typeFilter) && sort == old(sort)
    {
      error := None;
      match outcome {
        case Ok(data) => paymentMethods := data;
        case Fail(f) => error := Some(FailureMessage(f, LoadFailed));
      }
      loading := false;
    }

    method SetQuery(q: string)
      modifies this
      ensures query == q
      ensures paymentMethods == old(paymentMethods) && page == old(page) && debouncedQuery == old(debouncedQuery)
      ensures pageSize == old(pageSize) && typeFilter == old(typeFilter) && sort == old(sort)
      ensures loading == old(loading) && error == old(error)
    {
      query := q;
    }

    /** The debounce timer fired: the typed query takes effect and the view returns to page 1. */
    method DebounceFired()
      modifies this
      ensures debouncedQuery == old(query) && page == 1
      ensures paymentMethods == old(paymentMethods) && query == old(query)
      ensures pageSize == old(pageSize) && typeFilter == old(typeFilter) && sort == old(sort)
      ensures loading == old(loading) && error == old(error)
    {
      debouncedQuery := query;
      page := 1;
    }

    /** A created payment method goes first in the list and the view returns to page 1; a failure changes nothing. */
    method CreateSettled(outcome: Remote<PaymentMethod>)
      modifies this
      ensures outcome.Ok? ==> paymentMethods == [outcome.value] + old(paymentMethods) && page == 1
      ensures outcome.Fail? ==> paymentMethods == old(paymentMethods) && page == old(page)
      ensures pageSize == old(pageSize) && query == old(query) && debouncedQuery == old(debouncedQuery)
      ensures typeFilter == old(typeFilter) && sort == old(sort) && loading == old(loading) && error == old(error)
    {
      if outcome.Ok? {
        paymentMethods := [outcome.value] + paymentMethods;
        page := 1;
      }
    }

    /** An update replaces exactly the paymentMethods with that id; the others and the length stay. */
    method EditSettled(id: string, outcome: Remote<PaymentMethod>)
      modifies this
      ensures |paymentMethods| == |old(paymentMethods)|
      ensures outcome.Ok? ==>
        forall i :: 0 <= i < |paymentMethods| ==>
          paymentMethods[i] == if old(paymentMethods)[i].id == id then outcome.value else old(paymentMethods)[i]
      ensures outcome.Fail? ==> paymentMethods == old(paymentMethods)
      ensures page == old(page) && pageSize == old(pageSize) && query == old(query)
      ensures debouncedQuery == old(debouncedQuery) && typeFilter == old(typeFilter) && sort == old(sort)
      ensures loading == old(loading) && error == old(error)
    {
      if outcome.Ok? {
        paymentMethods := Lists.ReplaceWhere(paymentMethods, (p: PaymentMethod) => p.id == id, outcome.value);
      }
    }

    /** A deletion removes exactly the paymentMethods with the target's id and keeps the rest in order. */
    method DeleteSettled(target: PaymentMethod, outcome: Remote<()>)
      modifies this
      ensures outcome.Ok? ==>
        && (forall x :: x in paymentMethods <==> x in old(paymentMethods) && x.id != target.id)
        && Lists.IsSubsequence(paymentMethods, old(paymentMethods))
        && (forall x :: multiset(paymentMethods)[x] == if x.id != target.id then multiset(old(paymentMethods))[x] else 0)
      ensures outcome.Fail? ==> paymentMethods == old(paymentMethods)
      ensures page == old(page) && pageSize == old(pageSize) && query == old(query)
      ensures debouncedQuery == old(debouncedQuery) && typeFilter == old(typeFilter) && sort == old(sort)
      ensures loading == old(loading) && error == old(error)
    {
      if outcome.Ok? {
        Lists.FilterIsSubsequence(paymentMethods, (p: PaymentMethod) => p.id != target.id);
        paymentMethods := Lists.Filter(paymentMethods, (p: PaymentMethod) => p.id != target.id);
      }
    }

    method SetPage(p: int)
      modifies this
      ensures page == p
      ensures paymentMethods == old(paymentMethods) && pageSize == old(pageSize) && query == old(query)
      ensures debouncedQuery == old(debouncedQuery) && typeFilter == old(typeFilter) && sort == old(sort)
      ensures loading == old(loading) && error == old(error)
    {
      page := p;
    }

    /** A new page size starts again from page 1. */
    method PageSizeChanged(size: int)
      modifies this
      ensures pageSize == size && page == 1
      ensures paymentMethods == old(paymentMethods) && query == old(query)
      ensures debouncedQuery == old(debouncedQuery) && typeFilter == old(typeFilter) && sort == old(sort)
      ensures loading == old(loading) && error == old(error)
    {
      pageSize := size;
      page := 1;
    }

    /** A new type filter starts again from page 1. */
    method TypeFilterChanged(c: string)
      modifies this
      ensures typeFilter == c && page == 1
      ensures paymentMethods == old(paymentMethods) && pageSize == old(pageSize) && query == old(query)
      ensures debouncedQuery == old(debouncedQuery) && sort == old(sort)
      ensures loading == old(loading) && error == old(error)
    {
      typeFilter := c;
      page := 1;
    }

    /** A new sort starts again from page 1. */
    method SortChanged(s: string)
      modifies this
      ensures sort == s && page == 1
      ensures paymentMethods == old(paymentMethods) && pageSize == old(pageSize) && query == old(query)
      ensures debouncedQuery == old(debouncedQuery) && typeFilter == old(typeFilter)
      ensures loading == old(loading) && error == old(error)
    {
      sort := s;
      page := 1;
    }
  }
}
