/**
 * The request paths of the project-scoped expense endpoints, and the list
 * URL `getExpenses` builds: the shared page/sort parameters followed by
 * `includeDeleted`, behind a "?" only when any parameter is sent.
 */
module ExpenseService {
  import opened Common
  import opened QueryParams

  /** The optional parameters of `getExpenses`. */
  datatype ExpensesQuery = ExpensesQuery(list: ListQuery, includeDeleted: Option<bool>)

  /** The collection path of a project's expenses. */
  function ExpensesPath(projectId: string): string
  {
    "/projects/" + projectId + "/expenses"
  }

  /** The path of one expense, used to read, update and delete it. */
  function ExpensePath(projectId: string, expenseId: string): string
  {
    ExpensesPath(projectId) + "/" + expenseId
  }

  /** The path listing a project's expense templates. */
  function TemplatesPath(projectId: string): string
  {
    ExpensesPath(projectId) + "/templates"
  }

  /** The path that creates an expense from a template. */
  function FromTemplatePath(projectId: string, templateId: string): string
  {
    ExpensesPath(projectId) + "/from-template/" + templateId
  }

  /** `String(b)` for a boolean. */
  function BoolText(b: bool): string
  {
    if b then "true" else "false"
  }

  /** The `includeDeleted` parameter, sent whenever it is defined, `false` included. */
  function IncludeDeletedEntry(q: ExpensesQuery): seq<Entry>
  {
    EntryIf(q.includeDeleted.Some?, "includeDeleted", if q.includeDeleted.Some? then BoolText(q.includeDeleted.value) else "")
  }

  /** Every parameter of an expense list query, in the order they are set. */
  function ExpenseEntries(q: ExpensesQuery): seq<Entry>
  {
    ListEntries(q.list) + IncludeDeletedEntry(q)
  }

  /** `getExpenses`: fills a fresh `URLSearchParams` and appends its text to the collection path. */
  method GetExpensesUrl(projectId: string, q: ExpensesQuery, encode: string -> string) returns (url: string)
    ensures url == WithQuery(ExpensesPath(projectId), Serialize(ExpenseEntries(q), encode))
  {
    var query := new SearchParams();
    SetListParams(query, q.list);
    assert Unnamed(query.entries, "includeDeleted") by {
      ListEntriesOrder(q.list);
      assert Rank("includeDeleted") == 4;
    }
    SetIf(query, q.includeDeleted.Some?, "includeDeleted",
      if q.includeDeleted.Some? then BoolText(q.includeDeleted.value) else "");
    var qs := query.ToString(encode);
    url := if qs != "" then ExpensesPath(projectId) + "?" + qs else ExpensesPath(projectId);
  }

  /**
   * `includeDeleted` is sent exactly when defined, as "true" or "false",
   * after the shared parameters, which keep their own rules.
   */
  lemma ExpenseEntriesSpec(q: ExpensesQuery)
    ensures var e := ExpenseEntries(q);
      && (forall v :: ("includeDeleted", v) in e <==>
            q.includeDeleted.Some? && v == BoolText(q.includeDeleted.value))
      && (forall x :: x in ListEntries(q.list) ==> x in e)
      && InParamOrder(e)
      && |e| <= 5
  {
    ListEntriesOrder(q.list);
    assert Rank("includeDeleted") == 4;
    EntryIfRank(q.includeDeleted.Some?, "includeDeleted",
      if q.includeDeleted.Some? then BoolText(q.includeDeleted.value) else "");
    OrderAppend(ListEntries(q.list), IncludeDeletedEntry(q), 4, 5);
  }

  /**
   * The list URL always starts with the collection path, and carries a
   * "?" and the query string exactly when some parameter is sent.
   */
  lemma ExpensesUrlShape(projectId: string, q: ExpensesQuery, encode: string -> string)
    ensures var url := WithQuery(ExpensesPath(projectId), Serialize(ExpenseEntries(q), encode));
      && ExpensesPath(projectId) <= url
      && (url == ExpensesPath(projectId) <==>
            q.list.page.None? && q.list.pageSize.None? && !Given(q.list.sortBy)
            && !Given(q.list.sortDirection) && q.includeDeleted.None?)
  {
    WithQueryShape(ExpensesPath(projectId), ExpenseEntries(q), encode);
    ListEntriesEmpty(q.list);
  }

  /** An item path extends the collection path by "/" and the id, so distinct ids give distinct paths. */
  lemma ExpensePathInjective(projectId: string, a: string, b: string)
    ensures ExpensesPath(projectId) + "/" <= ExpensePath(projectId, a)
    ensures ExpensePath(projectId, a) == ExpensePath(projectId, b) ==> a == b
  {
    var base := ExpensesPath(projectId) + "/";
    assert ExpensePath(projectId, a) == base + a;
    assert ExpensePath(projectId, b) == base + b;
    if ExpensePath(projectId, a) == ExpensePath(projectId, b) {
      assert a == (base + a)[|base|..];
      assert b == (base + b)[|base|..];
    }
  }
}
