/**
 * State of a project's category list: every category fetched at once,
 * narrowed on the client by a name search, and updated in place by the
 * create/edit/delete outcomes.
 */
module UseProjectCategories {
  import opened Common
  import opened Entities
  import JsText
  import Lists

  /** The lower-cased query occurs in the lower-cased name. */
  predicate NameMatches(c: Category, q: string)
  {
    JsText.Contains(JsText.ToLower(c.name), JsText.ToLower(q))
  }

  /** `filtered`: every category for an empty query, otherwise the name matches in order. */
  function FilterCategories(categories: seq<Category>, q: string): (r: seq<Category>)
    ensures q == "" ==> r == categories
    ensures forall x :: x in r <==> x in categories && (q != "" ==> NameMatches(x, q))
    ensures forall x :: multiset(r)[x] == if q != "" && !NameMatches(x, q) then 0 else multiset(categories)[x]
    ensures Lists.IsSubsequence(r, categories)
  {
    if q == "" then
      Lists.SubsequenceRefl(categories);
      categories
    else
      Lists.FilterIsSubsequence(categories, (c: Category) => NameMatches(c, q));
      Lists.Filter(categories, (c: Category) => NameMatches(c, q))
  }

  /** A category is found by any part of its own name, in any letter case. */
  lemma FoundByOwnName(c: Category, categories: seq<Category>)
    requires c in categories
    ensures c in FilterCategories(categories, c.name)
    ensures c in FilterCategories(categories, JsText.ToLower(c.name))
  {
    JsText.ContainsSelf(JsText.ToLower(c.name));
    JsText.ToLowerIdempotent(c.name);
  }

  class CategoriesState {
    var categories: seq<Category>
    var loading: bool
    var query: string
    var debouncedQuery: string

    constructor()
      ensures categories == [] && loading && query == "" && debouncedQuery == ""
    {
      categories := [];
      loading := true;
      query := "";
      debouncedQuery := "";
    }

    function Filtered(): seq<Category>
      reads this
    {
      FilterCategories(categories, debouncedQuery)
    }

    /** A name search is active. */
    predicate HasSearch()
      reads this
    {
      debouncedQuery != ""
    }

    /** The count shown is that of every category, whatever the search hides. */
    function Total(): (r: nat)
      reads this
      ensures r >= |Filtered()|
    {
      Lists.SubsequenceLength(Filtered(), categories);
      |categories|
    }

    /**
     * `fetchCategories` starts: loading is raised. It runs on mount and
     * whenever the exported `refetch` is called.
     */
    method FetchStarted()
      modifies this
      ensures loading
      ensures categories == old(categories) && query == old(query) && debouncedQuery == old(debouncedQuery)
    {
      loading := true;
    }

    /** A settled fetch stores the list on success and keeps it on failure; loading ends. */
    method FetchSettled(outcome: Remote<seq<Category>>)
      modifies this
      ensures !loading
      ensures outcome.Ok? ==> categories == outcome.value
      ensures outcome.Fail? ==> categories == old(categories)
      ensures query == old(query) && debouncedQuery == old(debouncedQuery)
    {
      if outcome.Ok? {
        categories := outcome.value;
      }
      loading := false;
    }

    /** A created category goes last in the list, and the total grows by one. */
    method CreateSettled(outcome: Remote<Category>)
      modifies this
      ensures outcome.Ok? ==> categories == old(categories) + [outcome.value]
      ensures outcome.Ok? ==> (outcome.value in Filtered() <==>
        debouncedQuery == "" || NameMatches(outcome.value, debouncedQuery))
      ensures outcome.Fail? ==> categories == old(categories)
      ensures loading == old(loading) && query == old(query) && debouncedQuery == old(debouncedQuery)
    {
      if outcome.Ok? {
        categories := categories + [outcome.value];
      }
    }

    /** An update replaces exactly the categories with that id; the others and the length stay. */
    method EditSettled(id: string, outcome: Remote<Category>)
      modifies this
      ensures |categories| == |old(categories)|
      ensures outcome.Ok? ==>
        forall i :: 0 <= i < |categories| ==>
          categories[i] == if old(categories)[i].id == id then outcome.value else old(categories)[i]
      ensures outcome.Fail? ==> categories == old(categories)
      ensures loading == old(loading) && query == old(query) && debouncedQuery == old(debouncedQuery)
    {
      if outcome.Ok? {
        categories := Lists.ReplaceWhere(categories, (c: Category) => c.id == id, outcome.value);
      }
    }

    /** A deletion removes exactly the categories with the target's id and keeps the rest in order. */
    method DeleteSettled(target: Category, outcome: Remote<()>)
      modifies this
      ensures outcome.Ok? ==>
        && (forall x :: x in categories <==> x in old(categories) && x.id != target.id)
        && Lists.IsSubsequence(categories, old(categories))
        && (forall x :: multiset(categories)[x] == if x.id != target.id then multiset(old(categories))[x] else 0)
      ensures outcome.Fail? ==> categories == old(categories)
      ensures loading == old(loading) && query == old(query) && debouncedQuery == old(debouncedQuery)
    {
      if outcome.Ok? {
        Lists.FilterIsSubsequence(categories, (c: Category) => c.id != target.id);
        categories := Lists.Filter(categories, (c: Category) => c.id != target.id);
      }
    }

    method SetQuery(q: string)
      modifies this
      ensures query == q
      ensures categories == old(categories) && loading == old(loading) && debouncedQuery == old(debouncedQuery)
    {
      query := q;
    }

    /** The debounce timer fired: the typed query takes effect. */
    method DebounceFired()
      modifies this
      ensures debouncedQuery == old(query)
      ensures categories == old(categories) && loading == old(loading) && query == old(query)
    {
      debouncedQuery := query;
    }
  }
}
