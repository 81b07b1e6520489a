/**
 * The "field:direction" sort strings the list views keep in their state,
 * taken apart as `sort.split(":")` does.
 */
module SortKeys {
  import opened Common
  import JsText

  /** The part before the first colon. */
  function SortField(sort: string): (r: string)
    ensures ':' !in r
  {
    JsText.Split(sort, ':')[0]
  }

  /** The part after the first colon, or nothing (`undefined`) when there is no colon. */
  function SortDirection(sort: string): (r: Option<string>)
    ensures r.Some? ==> ':' !in r.value
  {
    var parts := JsText.Split(sort, ':');
    if |parts| >= 2 then Some(parts[1]) else None
  }

  /** 1 for "asc"; any other direction, or none, sorts descending. */
  function Multiplier(sort: string): (r: int)
    ensures r == 1 <==> SortDirection(sort) == Some("asc")
    ensures r == 1 || r == -1
  {
    if SortDirection(sort) == Some("asc") then 1 else -1
  }

  /** A sort string built from a field and a direction gives them back. */
  lemma {:induction false} SortKeyOf(field: string, direction: string)
    requires ':' !in field && ':' !in direction
    ensures SortField(field + ":" + direction) == field
    ensures SortDirection(field + ":" + direction) == Some(direction)
  {
    JsText.SplitAtFirst(field, direction, ':');
    JsText.SplitNoSep(direction, ':');
    assert field + ":" + direction == field + [':'] + direction;
  }

  /** The same field sorted "desc" multiplies by the opposite sign of "asc". */
  lemma DescNegatesAsc(field: string)
    requires ':' !in field
    ensures SortField(field + ":desc") == SortField(field + ":asc") == field
    ensures Multiplier(field + ":desc") == -Multiplier(field + ":asc")
  {
    assert "desc"[0] != ':' && "desc"[1] != ':' && "desc"[2] != ':' && "desc"[3] != ':';
    assert "asc"[0] != ':' && "asc"[1] != ':' && "asc"[2] != ':';
    SortKeyOf(field, "desc");
    SortKeyOf(field, "asc");
    assert field + ":desc" == field + ":" + "desc";
    assert field + ":asc" == field + ":" + "asc";
  }
}
