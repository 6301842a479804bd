/** The GET handler of app/api/items/route.ts: reading the query string,
    calling `getItems`, and the pagination block of the response.  The
    rows `getItems` returns are a parameter; running the query is not
    modelled. */
module ItemsRoute {
  import opened Js
  import Db

  /** `searchParams.get(name)` for the four parameters the handler reads. */
  datatype SearchParams = SearchParams(q: Option<string>, tag: Option<string>, limit: Option<string>, offset: Option<string>)

  /** The options the handler passes to `getItems`. */
  datatype ItemsOptions = ItemsOptions(q: Option<string>, tag: Option<string>, limit: JsInt, offset: JsInt)

  /** The handler's reading of the query: empty search and tag become
      undefined, a missing limit and offset read as "50" and "0". */
  function ReadOptions(p: SearchParams): (o: ItemsOptions)
    ensures o.q.Some? <==> Truthy(p.q)
    ensures o.tag.Some? <==> Truthy(p.tag)
    ensures o.q.Some? ==> o.q == p.q
    ensures o.tag.Some? ==> o.tag == p.tag
    ensures Truthy(p.limit) ==> o.limit == ParseInt(p.limit.value)
    ensures Truthy(p.offset) ==> o.offset == ParseInt(p.offset.value)
    ensures !Truthy(p.limit) ==> o.limit == Int(50)
    ensures !Truthy(p.offset) ==> o.offset == Int(0)
  {
    ParseDefaults();
    ItemsOptions(OrNull(p.q), OrNull(p.tag), ParseInt(OrElse(p.limit, "50")), ParseInt(OrElse(p.offset, "0")))
  }

  /** The default strings read as the numbers they spell. */
  lemma ParseDefaults()
    ensures ParseInt("50") == Int(50) && ParseInt("0") == Int(0)
  {
    FiftyString();
    ParseIntOfNatToString(50);
    ZeroString();
    ParseIntOfNatToString(0);
  }

  /** The pagination block of the response. */
  datatype Pagination = Pagination(limit: JsInt, offset: JsInt, hasMore: bool)

  datatype ItemsResponse<T> = ItemsResponse(items: seq<T>, pagination: Pagination)

  /** The JSON body: the rows, the limit and offset that were used, and
      whether a full page came back. */
  function Respond<T>(o: ItemsOptions, rows: seq<T>): (r: ItemsResponse<T>)
    ensures r.items == rows
    ensures r.pagination.limit == o.limit && r.pagination.offset == o.offset
    ensures r.pagination.hasMore <==> o.limit == Int(|rows|)
  {
    ItemsResponse(rows, Pagination(o.limit, o.offset, StrictEq(o.limit, |rows|)))
  }

  /** `getItems` receives the options unchanged: its last two parameters are
      the limit and offset read here (NaN included), the search and tag
      conditions come from the same `q` and `tag`, and the statement has one
      placeholder per parameter. */
  lemma OptionsReachQuery(o: ItemsOptions)
    ensures var params := Db.ItemsParams(o.q, o.tag, Some(o.limit), Some(o.offset));
      && params[|params| - 2] == Db.PNum(o.limit)
      && params[|params| - 1] == Db.PNum(o.offset)
      && |params| == 2 + (if Truthy(o.q) then 2 else 0) + (if Truthy(o.tag) then 1 else 0)
      && CountChar(Db.Render(Db.ItemsQuery(o.q, o.tag)), '?') == |params|
  {
    Db.ParamDefaults(o.q, o.tag, Some(o.limit), Some(o.offset));
    Db.PlaceholdersMatchParams(o.q, o.tag, Some(o.limit), Some(o.offset));
  }

  /** A request without limit or offset reads 50 rows from the start, and a
      page is full exactly when it holds 50 rows. */
  lemma DefaultPage<T>(q: Option<string>, tag: Option<string>, rows: seq<T>)
    ensures var o := ReadOptions(SearchParams(q, tag, None, None));
      && o.limit == Int(50) && o.offset == Int(0)
      && (Respond(o, rows).pagination.hasMore <==> |rows| == 50)
  {
  }

  /** A limit that is not a number never reports more rows. */
  lemma NaNLimitHasNoMore<T>(o: ItemsOptions, rows: seq<T>)
    requires o.limit == NaN
    ensures !Respond(o, rows).pagination.hasMore
  {
  }
}
