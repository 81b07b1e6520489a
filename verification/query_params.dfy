/**
 * The `URLSearchParams` object the list services fill with successive
 * `set` calls, its `toString()` serialisation, and the shared
 * page/sort parameters. Percent-encoding is the parameter `encode`,
 * applied to every name and value.
 */
module QueryParams {
  import opened Common
  import JsText
  import Lists
  import SortKeys

  type Entry = (string, string)

  /** No entry carries that name. */
  predicate Unnamed(entries: seq<Entry>, name: string)
  {
    forall i :: 0 <= i < |entries| ==> entries[i].0 != name
  }

  /** `params.get(name)`: the value of the first entry with that name. */
  function Lookup(entries: seq<Entry>, name: string): (r: Option<string>)
    ensures r.None? <==> Unnamed(entries, name)
    ensures r.Some? ==> (name, r.value) in entries
  {
    if entries == [] then None
    else if entries[0].0 == name then Some(entries[0].1)
    else Lookup(entries[1..], name)
  }

  /** The entries without any entry of that name. */
  function RemoveKey(entries: seq<Entry>, name: string): (r: seq<Entry>)
    ensures Unnamed(r, name)
    ensures forall k :: k != name ==> Lookup(r, k) == Lookup(entries, k)
  {
    if entries == [] then []
    else if entries[0].0 == name then RemoveKey(entries[1..], name)
    else [entries[0]] + RemoveKey(entries[1..], name)
  }

  /** Looking up in a list with one more entry in front. */
  lemma LookupCons(e: Entry, rest: seq<Entry>)
    ensures forall k :: Lookup([e] + rest, k) == if e.0 == k then Some(e.1) else Lookup(rest, k)
  {
    forall k
      ensures Lookup([e] + rest, k) == if e.0 == k then Some(e.1) else Lookup(rest, k)
    {
      assert ([e] + rest)[0] == e && ([e] + rest)[1..] == rest;
    }
  }

  /**
   * `params.set(name, value)`: the first entry of that name takes the new
   * value and the later ones go; without one, the entry is appended.
   */
  function SetEntry(entries: seq<Entry>, name: string, value: string): (r: seq<Entry>)
    ensures Lookup(r, name) == Some(value)
    ensures forall k :: k != name ==> Lookup(r, k) == Lookup(entries, k)
    ensures Unnamed(entries, name) ==> r == entries + [(name, value)]
  {
    if entries == [] then [(name, value)]
    else if entries[0].0 == name then
      LookupCons((name, value), RemoveKey(entries[1..], name));
      LookupCons(entries[0], entries[1..]);
      assert entries == [entries[0]] + entries[1..];
      [(name, value)] + RemoveKey(entries[1..], name)
    else
      var rest := SetEntry(entries[1..], name, value);
      LookupCons(entries[0], rest);
      LookupCons(entries[0], entries[1..]);
      assert entries == [entries[0]] + entries[1..];
      [entries[0]] + rest
  }

  /** One entry as `name=value`. */
  function Pair(e: Entry, encode: string -> string): (r: string)
    ensures '=' in r
  {
    assert (encode(e.0) + "=" + encode(e.1))[|encode(e.0)|] == '=';
    encode(e.0) + "=" + encode(e.1)
  }

  function Pairs(entries: seq<Entry>, encode: string -> string): (r: seq<string>)
    ensures |r| == |entries|
    ensures forall i :: 0 <= i < |entries| ==> r[i] == Pair(entries[i], encode)
  {
    if entries == [] then [] else [Pair(entries[0], encode)] + Pairs(entries[1..], encode)
  }

  /** `params.toString()`: the entries as `name=value`, joined by "&". */
  function Serialize(entries: seq<Entry>, encode: string -> string): string
  {
    JsText.Join(Pairs(entries, encode), '&')
  }

  /** The query string is empty exactly when there are no entries. */
  lemma SerializeEmpty(entries: seq<Entry>, encode: string -> string)
    ensures Serialize(entries, encode) == "" <==> entries == []
  {
    if entries != [] {
      var parts := Pairs(entries, encode);
      assert '=' in parts[0];
      if |parts| > 1 {
        assert Serialize(entries, encode) == parts[0] + ['&'] + JsText.Join(parts[1..], '&');
      }
    }
  }

  /** A path with "?" and the query string appended, or the bare path when the query string is empty. */
  function WithQuery(path: string, qs: string): (r: string)
    ensures qs == "" ==> r == path
    ensures qs != "" ==> r == path + ['?'] + qs
  {
    if qs != "" then path + "?" + qs else path
  }

  /** A live `URLSearchParams` object. */
  class SearchParams {
    var entries: seq<Entry>

    constructor()
      ensures entries == []
    {
      entries := [];
    }

    method Set(name: string, value: string)
      modifies this
      ensures entries == SetEntry(old(entries), name, value)
    {
      entries := SetEntry(entries, name, value);
    }

    function ToString(encode: string -> string): string
      reads this
    {
      Serialize(entries, encode)
    }
  }

  /** The paging and sorting parameters every list endpoint accepts; each may be left undefined. */
  datatype ListQuery = ListQuery(
    page: Option<int>,
    pageSize: Option<int>,
    sortBy: Option<string>,
    sortDirection: Option<string>)

  /** `String(n)` for an integer. */
  function NumberText(n: int): string
  {
    JsText.IntToString(n)
  }

  /** A string parameter counts only when it is defined and not empty. */
  predicate Given(s: Option<string>)
  {
    s.Some? && s.value != ""
  }

  /** Position of a parameter name in the order the services set them; other names come last. */
  function Rank(name: string): int
  {
    if name == "page" then 0
    else if name == "pageSize" then 1
    else if name == "sortBy" then 2
    else if name == "sortDirection" then 3
    else if name == "includeDeleted" then 4
    else 5
  }

  /** The entries appear in the services' fixed parameter order, each name at most once. */
  predicate InParamOrder(entries: seq<Entry>)
  {
    forall i, j :: 0 <= i < j < |entries| ==> Rank(entries[i].0) < Rank(entries[j].0)
  }

  /** Keeps the entry only when `present`. */
  function EntryIf(present: bool, name: string, value: string): (r: seq<Entry>)
    ensures present ==> r == [(name, value)]
    ensures !present ==> r == []
  {
    if present then [(name, value)] else []
  }

  /**
   * The entries of a list query: page and page size whenever defined
   * (0 included), sort field and direction only when non-empty.
   */
  function ListEntries(q: ListQuery): seq<Entry>
  {
    PagingEntries(q) + SortingEntries(q)
  }

  function PagingEntries(q: ListQuery): seq<Entry>
  {
    EntryIf(q.page.Some?, "page", if q.page.Some? then NumberText(q.page.value) else "")
    + EntryIf(q.pageSize.Some?, "pageSize", if q.pageSize.Some? then NumberText(q.pageSize.value) else "")
  }

  function SortingEntries(q: ListQuery): seq<Entry>
  {
    EntryIf(Given(q.sortBy), "sortBy", if q.sortBy.Some? then q.sortBy.value else "")
    + EntryIf(Given(q.sortDirection), "sortDirection", if q.sortDirection.Some? then q.sortDirection.value else "")
  }

  /** Every name in `entries` ranks below `r`. */
  predicate RanksBelow(entries: seq<Entry>, r: int)
  {
    forall i :: 0 <= i < |entries| ==> Rank(entries[i].0) < r
  }

  /** Every name in `entries` ranks at `r` or later. */
  predicate RanksFrom(entries: seq<Entry>, r: int)
  {
    forall i :: 0 <= i < |entries| ==> Rank(entries[i].0) >= r
  }

  /** Two runs in parameter order, the first wholly before the second, stay in order when joined. */
  lemma OrderAppend(a: seq<Entry>, b: seq<Entry>, r: int, t: int)
    requires InParamOrder(a) && InParamOrder(b)
    requires RanksBelow(a, r) && RanksFrom(b, r) && RanksBelow(b, t) && r <= t
    ensures InParamOrder(a + b) && RanksBelow(a + b, t)
  {
    var e := a + b;
    forall i, j | 0 <= i < j < |e|
      ensures Rank(e[i].0) < Rank(e[j].0)
    {
      if j < |a| {
        assert e[i] == a[i] && e[j] == a[j];
      } else if i < |a| {
        assert e[i] == a[i] && e[j] == b[j - |a|];
      } else {
        assert e[i] == b[i - |a|] && e[j] == b[j - |a|];
      }
    }
    forall i | 0 <= i < |e|
      ensures Rank(e[i].0) < t
    {
      if i < |a| {
        assert e[i] == a[i];
      } else {
        assert e[i] == b[i - |a|];
      }
    }
  }

  /** A parameter set only when `present` is a run of rank `Rank(name)`. */
  lemma EntryIfRank(present: bool, name: string, value: string)
    ensures var e := EntryIf(present, name, value);
      && InParamOrder(e) && RanksFrom(e, Rank(name)) && RanksBelow(e, Rank(name) + 1) && |e| <= 1
  {
  }

  /** The parameters a list query sends, with their values. */
  lemma ListEntriesMembers(q: ListQuery)
    ensures var e := ListEntries(q);
      && (forall v :: ("page", v) in e <==> q.page.Some? && v == NumberText(q.page.value))
      && (forall v :: ("pageSize", v) in e <==> q.pageSize.Some? && v == NumberText(q.pageSize.value))
      && (forall v :: ("sortBy", v) in e <==> Given(q.sortBy) && v == q.sortBy.value)
      && (forall v :: ("sortDirection", v) in e <==> Given(q.sortDirection) && v == q.sortDirection.value)
  {
  }

  /** The ranks of the four list parameters. */
  lemma ListRanks()
    ensures Rank("page") == 0 && Rank("pageSize") == 1 && Rank("sortBy") == 2 && Rank("sortDirection") == 3
  {
  }

  /** Two runs that rank at `r` or later still do once joined. */
  lemma FromAppend(a: seq<Entry>, b: seq<Entry>, r: int)
    requires RanksFrom(a, r) && RanksFrom(b, r)
    ensures RanksFrom(a + b, r)
  {
    var e := a + b;
    forall i | 0 <= i < |e|
      ensures Rank(e[i].0) >= r
    {
      if i < |a| {
        assert e[i] == a[i];
      } else {
        assert e[i] == b[i - |a|];
      }
    }
  }

  /** Page and page size come first, in that order. */
  lemma PagingOrder(q: ListQuery)
    ensures var e := PagingEntries(q);
      InParamOrder(e) && RanksBelow(e, 2) && |e| <= 2
  {
    ListRanks();
    var v1 := if q.page.Some? then NumberText(q.page.value) else "";
    var v2 := if q.pageSize.Some? then NumberText(q.pageSize.value) else "";
    EntryIfRank(q.page.Some?, "page", v1);
    EntryIfRank(q.pageSize.Some?, "pageSize", v2);
    OrderAppend(EntryIf(q.page.Some?, "page", v1), EntryIf(q.pageSize.Some?, "pageSize", v2), 1, 2);
  }

  /** Sort field and direction follow, in that order. */
  lemma SortingOrder(q: ListQuery)
    ensures var e := SortingEntries(q);
      InParamOrder(e) && RanksFrom(e, 2) && RanksBelow(e, 4) && |e| <= 2
  {
    ListRanks();
    var v3 := if q.sortBy.Some? then q.sortBy.value else "";
    var v4 := if q.sortDirection.Some? then q.sortDirection.value else "";
    var p3 := EntryIf(Given(q.sortBy), "sortBy", v3);
    var p4 := EntryIf(Given(q.sortDirection), "sortDirection", v4);
    EntryIfRank(Given(q.sortBy), "sortBy", v3);
    EntryIfRank(Given(q.sortDirection), "sortDirection", v4);
    OrderAppend(p3, p4, 3, 4);
    FromAppend(p3, p4, 2);
  }

  /** A list query sends at most four parameters, in the fixed order. */
  lemma ListEntriesOrder(q: ListQuery)
    ensures InParamOrder(ListEntries(q)) && RanksBelow(ListEntries(q), 4) && |ListEntries(q)| <= 4
  {
    PagingOrder(q);
    SortingOrder(q);
    OrderAppend(PagingEntries(q), SortingEntries(q), 2, 4);
  }

  /** The query string of a set of entries, appended to a path. */
  lemma WithQueryShape(path: string, entries: seq<Entry>, encode: string -> string)
    ensures var url := WithQuery(path, Serialize(entries, encode));
      && path <= url
      && (url == path <==> entries == [])
      && (entries != [] ==> url[|path|] == '?' && url[|path| + 1..] == Serialize(entries, encode))
  {
    SerializeEmpty(entries, encode);
  }

  lemma EntryIfUnnamed(present: bool, n: string, v: string, name: string)
    requires n != name
    ensures Unnamed(EntryIf(present, n, v), name)
  {
  }

  lemma UnnamedAppend(a: seq<Entry>, b: seq<Entry>, name: string)
    requires Unnamed(a, name) && Unnamed(b, name)
    ensures Unnamed(a + b, name)
  {
    forall i | 0 <= i < |a + b|
      ensures (a + b)[i].0 != name
    {
      if i >= |a| {
        assert (a + b)[i] == b[i - |a|];
      }
    }
  }

  /** `if (present) query.set(name, value)` on a name the query does not hold yet. */
  method SetIf(query: SearchParams, present: bool, name: string, value: string)
    requires Unnamed(query.entries, name)
    modifies query
    ensures query.entries == old(query.entries) + EntryIf(present, name, value)
  {
    if present {
      query.Set(name, value);
    }
  }

  /** The `page` and `pageSize` calls, on a fresh `URLSearchParams`. */
  method SetPaging(query: SearchParams, q: ListQuery)
    requires query.entries == []
    modifies query
    ensures query.entries == PagingEntries(q)
  {
    SetIf(query, q.page.Some?, "page", if q.page.Some? then NumberText(q.page.value) else "");
    assert Unnamed(query.entries, "pageSize") by {
      EntryIfUnnamed(q.page.Some?, "page", if q.page.Some? then NumberText(q.page.value) else "", "pageSize");
    }
    SetIf(query, q.pageSize.Some?, "pageSize", if q.pageSize.Some? then NumberText(q.pageSize.value) else "");
  }

  /** The `sortBy` and `sortDirection` calls, after parameters of other names. */
  method SetSorting(query: SearchParams, q: ListQuery)
    requires Unnamed(query.entries, "sortBy") && Unnamed(query.entries, "sortDirection")
    modifies query
    ensures query.entries == old(query.entries) + SortingEntries(q)
  {
    ghost var before := query.entries;
    ghost var p3 := EntryIf(Given(q.sortBy), "sortBy", if q.sortBy.Some? then q.sortBy.value else "");
    SetIf(query, Given(q.sortBy), "sortBy", if q.sortBy.Some? then q.sortBy.value else "");
    assert Unnamed(query.entries, "sortDirection") by {
      EntryIfUnnamed(Given(q.sortBy), "sortBy", if q.sortBy.Some? then q.sortBy.value else "", "sortDirection");
      UnnamedAppend(before, p3, "sortDirection");
    }
    SetIf(query, Given(q.sortDirection), "sortDirection", if q.sortDirection.Some? then q.sortDirection.value else "");
  }

  /**
   * The four shared `set` calls of the list services, on a fresh
   * `URLSearchParams`: page and page size whenever defined, sort field and
   * direction only when non-empty.
   */
  method SetListParams(query: SearchParams, q: ListQuery)
    requires query.entries == []
    modifies query
    ensures query.entries == ListEntries(q)
  {
    SetPaging(query, q);
    assert Unnamed(query.entries, "sortBy") && Unnamed(query.entries, "sortDirection") by {
      PagingUnnamed(q, "sortBy");
      PagingUnnamed(q, "sortDirection");
    }
    SetSorting(query, q);
  }

  /** The paging entries carry no other name than `page` and `pageSize`. */
  lemma PagingUnnamed(q: ListQuery, name: string)
    requires name != "page" && name != "pageSize"
    ensures Unnamed(PagingEntries(q), name)
  {
    EntryIfUnnamed(q.page.Some?, "page", if q.page.Some? then NumberText(q.page.value) else "", name);
    EntryIfUnnamed(q.pageSize.Some?, "pageSize", if q.pageSize.Some? then NumberText(q.pageSize.value) else "", name);
    UnnamedAppend(
      EntryIf(q.page.Some?, "page", if q.page.Some? then NumberText(q.page.value) else ""),
      EntryIf(q.pageSize.Some?, "pageSize", if q.pageSize.Some? then NumberText(q.pageSize.value) else ""),
      name);
  }

  /** A list query sends nothing exactly when it defines no page or page size and no non-empty sort. */
  lemma ListEntriesEmpty(q: ListQuery)
    ensures ListEntries(q) == [] <==>
      q.page.None? && q.pageSize.None? && !Given(q.sortBy) && !Given(q.sortDirection)
  {
  }

  /**
   * The query the server-paged lists fetch with: the current page and page
   * size, and the two halves of their "field:direction" sort string.
   */
  function ServerListQuery(page: int, pageSize: int, sort: string): ListQuery
  {
    ListQuery(Some(page), Some(pageSize), Some(SortKeys.SortField(sort)), SortKeys.SortDirection(sort))
  }

  /**
   * A sort string built from a field and a direction is sent as `sortBy`
   * and `sortDirection`, and the page and page size are always sent.
   */
  lemma ServerListQuerySends(page: int, pageSize: int, field: string, direction: string)
    requires ':' !in field && ':' !in direction
    ensures var e := ListEntries(ServerListQuery(page, pageSize, field + ":" + direction));
      && ("page", NumberText(page)) in e
      && ("pageSize", NumberText(pageSize)) in e
      && (field != "" ==> ("sortBy", field) in e)
      && (direction != "" ==> ("sortDirection", direction) in e)
  {
    SortKeys.SortKeyOf(field, direction);
    ListEntriesMembers(ServerListQuery(page, pageSize, field + ":" + direction));
  }
}
