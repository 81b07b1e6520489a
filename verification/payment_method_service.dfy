/**
 * The request paths of the payment-method endpoints, and the URL
 * `getPaymentMethodExpenses` builds from the shared page/sort parameters.
 */
module PaymentMethodService {
  import opened QueryParams

  /** The collection path of the user's payment methods. */
  const PaymentMethodsPath := "/payment-methods"

  /** The path of one payment method, used to read, update and delete it. */
  function PaymentMethodPath(id: string): string
  {
    PaymentMethodsPath + "/" + id
  }

  /** The path of the expenses paid with one payment method. */
  function PaymentMethodExpensesPath(id: string): string
  {
    PaymentMethodPath(id) + "/expenses"
  }

  /** `getPaymentMethodExpenses`: fills a fresh `URLSearchParams` and appends its text to the path. */
  method GetPaymentMethodExpensesUrl(id: string, q: ListQuery, encode: string -> string) returns (url: string)
    ensures url == WithQuery(PaymentMethodExpensesPath(id), Serialize(ListEntries(q), encode))
  {
    var query := new SearchParams();
    SetListParams(query, q);
    var qs := query.ToString(encode);
    url := if qs != "" then PaymentMethodExpensesPath(id) + "?" + qs else PaymentMethodExpensesPath(id);
  }

  /**
   * The expenses URL always starts with the payment method's own path and
   * "/expenses", and carries a "?" and the query string exactly when some
   * parameter is sent.
   */
  lemma PaymentMethodExpensesUrlShape(id: string, q: ListQuery, encode: string -> string)
    ensures var url := WithQuery(PaymentMethodExpensesPath(id), Serialize(ListEntries(q), encode));
      && PaymentMethodPath(id) + "/" <= url
      && PaymentMethodExpensesPath(id) <= url
      && (url == PaymentMethodExpensesPath(id) <==>
            q.page.None? && q.pageSize.None? && !Given(q.sortBy) && !Given(q.sortDirection))
      && (url != PaymentMethodExpensesPath(id) ==> url[|PaymentMethodExpensesPath(id)|] == '?')
  {
    var path := PaymentMethodExpensesPath(id);
    WithQueryShape(path, ListEntries(q), encode);
    ListEntriesEmpty(q);
    ExpensesUnderItem(id);
    PrefixTrans(PaymentMethodPath(id) + "/", path, WithQuery(path, Serialize(ListEntries(q), encode)));
  }

  /** The expenses path lies under the item path. */
  lemma ExpensesUnderItem(id: string)
    ensures PaymentMethodPath(id) + "/" <= PaymentMethodExpensesPath(id)
  {
    assert PaymentMethodExpensesPath(id) == (PaymentMethodPath(id) + "/") + "expenses";
  }

  /** A prefix of a prefix is a prefix. */
  lemma PrefixTrans(a: string, b: string, c: string)
    requires a <= b && b <= c
    ensures a <= c
  {
    assert c[..|b|] == b;
    assert c[..|a|] == b[..|a|];
  }

  /** An item path is `/payment-methods/{id}`, so distinct ids give distinct paths. */
  lemma PaymentMethodPathInjective(a: string, b: string)
    ensures PaymentMethodsPath + "/" <= PaymentMethodPath(a)
    ensures PaymentMethodPath(a) == PaymentMethodPath(b) ==> a == b
  {
    var base := PaymentMethodsPath + "/";
    if PaymentMethodPath(a) == PaymentMethodPath(b) {
      assert a == (base + a)[|base|..];
      assert b == (base + b)[|base|..];
    }
  }
}
