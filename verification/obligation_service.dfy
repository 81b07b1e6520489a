/**
 * The request paths of the project-scoped obligation endpoints, and the
 * list URL `getObligations` builds from the shared page/sort parameters.
 */
module ObligationService {
  import opened QueryParams

  /** The collection path of a project's obligations. */
  function ObligationsPath(projectId: string): string
  {
    "/projects/" + projectId + "/obligations"
  }

  /** The path of one obligation, used to read, update and delete it. */
  function ObligationPath(projectId: string, obligationId: string): string
  {
    ObligationsPath(projectId) + "/" + obligationId
  }

  /** `getObligations`: fills a fresh `URLSearchParams` and appends its text to the collection path. */
  method GetObligationsUrl(projectId: string, q: ListQuery, encode: string -> string) returns (url: string)
    ensures url == WithQuery(ObligationsPath(projectId), Serialize(ListEntries(q), encode))
  {
    var query := new SearchParams();
    SetListParams(query, q);
    var qs := query.ToString(encode);
    url := if qs != "" then ObligationsPath(projectId) + "?" + qs else ObligationsPath(projectId);
  }

  /**
   * The list URL always starts with the collection path, and carries a
   * "?" and the query string exactly when some parameter is sent.
   */
  lemma ObligationsUrlShape(projectId: string, q: ListQuery, encode: string -> string)
    ensures var url := WithQuery(ObligationsPath(projectId), Serialize(ListEntries(q), encode));
      && ObligationsPath(projectId) <= url
      && (url == ObligationsPath(projectId) <==>
            q.page.None? && q.pageSize.None? && !Given(q.sortBy) && !Given(q.sortDirection))
      && (url != ObligationsPath(projectId) ==> url[|ObligationsPath(projectId)|] == '?')
  {
    WithQueryShape(ObligationsPath(projectId), ListEntries(q), encode);
    ListEntriesEmpty(q);
  }

  /** An item path is `/projects/{p}/obligations/{o}`, so distinct ids give distinct paths. */
  lemma ObligationPathInjective(projectId: string, a: string, b: string)
    ensures ObligationPath(projectId, a) == "/projects/" + projectId + "/obligations/" + a
    ensures ObligationPath(projectId, a) == ObligationPath(projectId, b) ==> a == b
  {
    var base := ObligationsPath(projectId) + "/";
    assert ObligationPath(projectId, a) == base + a;
    assert ObligationPath(projectId, b) == base + b;
    if ObligationPath(projectId, a) == ObligationPath(projectId, b) {
      assert a == (base + a)[|base|..];
      assert b == (base + b)[|base|..];
    }
  }
}
