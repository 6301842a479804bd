/** The paginated item list of hooks/use-items.ts.  `fetchItems` awaits the
    server, so it is split into the part before the request (`BeginFetch`)
    and the part after the response (`CompleteFetch`); the response is a
    parameter. */
module UseItems {
  import opened Js
  import opened ItemsRoute

  /** What the awaited fetch produced: a response body, a response that was
      not ok, or a thrown value (an `Error` with its message, or something else). */
  datatype Outcome<T> = Ok(body: ItemsResponse<T>) | NotOk | Threw(message: Option<string>)

  /** The message stored in `error` for a failed fetch. */
  function ErrorMessage<T>(outcome: Outcome<T>): (message: string)
    requires !outcome.Ok?
    ensures outcome.NotOk? ==> message == "Failed to fetch items"
    ensures outcome.Threw? && outcome.message.None? ==> message == "An error occurred"
    ensures outcome.Threw? && outcome.message.Some? ==> message == outcome.message.value
  {
    match outcome
    case NotOk => "Failed to fetch items"
    case Threw(m) => if m.Some? then m.value else "An error occurred"
  }

  /** The hook's state slots. */
  datatype ItemsState<T> = ItemsState(items: seq<T>, loading: bool, error: Option<string>, offset: nat, hasMore: bool)

  /** Empty, loading, no error, offset 0, more expected. */
  function InitialState<T>(): ItemsState<T> {
    ItemsState([], true, None, 0, true)
  }

  /** The offset is the number of items held: the next page starts after them. */
  predicate Synced<T>(s: ItemsState<T>) {
    s.offset == |s.items|
  }

  /** The query string of a fetch: `q` and `tag` only when non-empty, the
      limit, and offset 0 for a reset or the current offset otherwise. */
  function Request<T>(searchQuery: Option<string>, tag: Option<string>, limit: nat, s: ItemsState<T>, reset: bool): (p: SearchParams)
    ensures p.q.Some? <==> Truthy(searchQuery)
    ensures p.tag.Some? <==> Truthy(tag)
    ensures p.offset == Some(NatToString(if reset then 0 else s.offset))
    ensures p.limit == Some(NatToString(limit))
  {
    SearchParams(OrNull(searchQuery), OrNull(tag), Some(NatToString(limit)),
      Some(NatToString(if reset then 0 else s.offset)))
  }

  /** The start of `fetchItems`: loading, error cleared. */
  function Started<T>(s: ItemsState<T>): ItemsState<T> {
    s.(loading := true, error := None)
  }

  /** The end of `fetchItems`: a page replaces or extends the list, a failure
      only records its message; loading ends either way. */
  function Finished<T>(s: ItemsState<T>, reset: bool, outcome: Outcome<T>): (r: ItemsState<T>)
    ensures !r.loading
    ensures outcome.Ok? && reset ==> r.items == outcome.body.items && r.offset == |outcome.body.items|
    ensures outcome.Ok? && !reset ==>
      r.items == s.items + outcome.body.items && r.offset == s.offset + |outcome.body.items|
    ensures outcome.Ok? ==> r.hasMore == outcome.body.pagination.hasMore && r.error == s.error
    ensures !outcome.Ok? ==> r == s.(loading := false, error := Some(ErrorMessage(outcome)))
  {
    match outcome
    case Ok(body) =>
      var page := body.items;
      s.(items := if reset then page else s.items + page,
         offset := if reset then |page| else s.offset + |page|,
         hasMore := body.pagination.hasMore,
         loading := false)
    case _ => s.(loading := false, error := Some(ErrorMessage(outcome)))
  }

  /** Starting a fetch keeps the list in step with the offset, and so does
      every way a fetch can end. */
  lemma FetchKeepsSynced<T>(s: ItemsState<T>, reset: bool, outcome: Outcome<T>)
    requires Synced(s)
    ensures Synced(Started(s))
    ensures Synced(Finished(Started(s), reset, outcome))
  {
  }

  /** A reset that succeeds gives a synced list whatever came before. */
  lemma ResetResyncs<T>(s: ItemsState<T>, body: ItemsResponse<T>)
    ensures Synced(Finished(s, true, Ok(body)))
    ensures Finished(s, true, Ok(body)).items == body.items
  {
  }

  /** A failed fetch leaves the list, the offset and `hasMore` alone. */
  lemma FailureKeepsList<T>(s: ItemsState<T>, reset: bool, outcome: Outcome<T>)
    requires !outcome.Ok?
    ensures var r := Finished(s, reset, outcome);
      r.items == s.items && r.offset == s.offset && r.hasMore == s.hasMore && r.error.Some?
  {
  }

  /** The route reads the hook's query string back as the hook's own search,
      tag, limit and offset. */
  lemma RequestReadsBack<T>(searchQuery: Option<string>, tag: Option<string>, limit: nat, s: ItemsState<T>, reset: bool)
    ensures ReadOptions(Request(searchQuery, tag, limit, s, reset))
      == ItemsOptions(OrNull(searchQuery), OrNull(tag), Int(limit), Int(if reset then 0 else s.offset))
  {
    var p := Request(searchQuery, tag, limit, s, reset);
    var offset := if reset then 0 else s.offset;
    var o := ReadOptions(p);
    assert NatToString(limit) != "" && NatToString(offset) != "";
    assert OrElse(p.limit, "50") == NatToString(limit);
    assert OrElse(p.offset, "0") == NatToString(offset);
    ParseIntOfNatToString(limit);
    ParseIntOfNatToString(offset);
    assert o.limit == Int(limit) && o.offset == Int(offset);
    assert o.q == OrNull(searchQuery) && o.tag == OrNull(tag);
  }

  /** Loading more pages from the route: the page is appended, the offset
      still counts the items, and more is expected exactly after a full page. */
  lemma LoadMoreFromRoute<T>(searchQuery: Option<string>, tag: Option<string>, limit: nat, s: ItemsState<T>, rows: seq<T>)
    requires Synced(s)
    ensures var o := ReadOptions(Request(searchQuery, tag, limit, s, false));
      var r := Finished(Started(s), false, Ok(Respond(o, rows)));
      && r.items == s.items + rows
      && Synced(r)
      && (r.hasMore <==> |rows| == limit)
  {
    RequestReadsBack(searchQuery, tag, limit, s, false);
  }

  /** `loadMore()`: a next-page fetch starts only when none is running and
      more rows are expected. */
  function LoadMoreStarted<T>(s: ItemsState<T>): (r: (ItemsState<T>, bool))
    ensures r.1 <==> !s.loading && s.hasMore
    ensures !r.1 ==> r.0 == s
  {
    if !s.loading && s.hasMore then (Started(s), true) else (s, false)
  }

  /** `refetch()` as written: the offset is set to 0 before the reset fetch starts. */
  function RefetchStarted<T>(s: ItemsState<T>): ItemsState<T> {
    Started(s.(offset := 0))
  }

  /** `refetch()` without the extra `setOffset(0)`: the reset fetch alone. */
  function RefetchStartedCorrected<T>(s: ItemsState<T>): ItemsState<T> {
    Started(s)
  }

  /** As written, a refetch whose request fails leaves one item held with the
      offset at 0, so the next page is requested from offset 0 again. */
  lemma RefetchFailureLosesOffset()
    ensures var s := ItemsState([7], false, None, 1, true);
      var r := Finished(RefetchStarted(s), true, NotOk);
      && Synced(s)
      && !Synced(r)
      && r.items == [7] && r.offset == 0
      && LoadMoreStarted(r).1
      && Request(None, None, 50, LoadMoreStarted(r).0, false).offset == Some("0")
  {
    var s := ItemsState([7], false, None, 1, true);
    var r := Finished(RefetchStarted(s), true, NotOk);
    assert r.offset == 0;
    ZeroString();
  }

  /** Without the extra reset of the offset, a refetch keeps the list and the
      offset in step however it ends. */
  lemma CorrectedRefetchKeepsSynced<T>(s: ItemsState<T>, outcome: Outcome<T>)
    requires Synced(s)
    ensures Synced(RefetchStartedCorrected(s))
    ensures Synced(Finished(RefetchStartedCorrected(s), true, outcome))
  {
    FetchKeepsSynced(s, true, outcome);
  }

  /** The hook's state, with the search, tag and page size it was called with. */
  class ItemsHook<T> {
    const searchQuery: Option<string>
    const tag: Option<string>
    const limit: nat
    var items: seq<T>
    var loading: bool
    var error: Option<string>
    var offset: nat
    var hasMore: bool

    function State(): ItemsState<T>
      reads this
    {
      ItemsState(items, loading, error, offset, hasMore)
    }

    /** `useItems(options)` before its effect runs; `limit` defaults to 50. */
    constructor (searchQuery: Option<string>, tag: Option<string>, limit: Option<nat>)
      ensures this.searchQuery == searchQuery && this.tag == tag
      ensures this.limit == (if limit.Some? then limit.value else 50)
      ensures State() == InitialState()
    {
      this.searchQuery := searchQuery;
      this.tag := tag;
      this.limit := if limit.Some? then limit.value else 50;
      items := [];
      loading := true;
      error := None;
      offset := 0;
      hasMore := true;
    }

    /** `fetchItems(reset)` up to the request: returns the query string sent. */
    method BeginFetch(reset: bool) returns (request: SearchParams)
      modifies this
      ensures request == Request(searchQuery, tag, limit, old(State()), reset)
      ensures State() == Started(old(State()))
    {
      loading := true;
      error := None;
      request := SearchParams(OrNull(searchQuery), OrNull(tag), Some(NatToString(limit)),
        Some(NatToString(if reset then 0 else offset)));
    }

    /** `fetchItems(reset)` after the response. */
    method CompleteFetch(reset: bool, outcome: Outcome<T>)
      modifies this
      ensures State() == Finished(old(State()), reset, outcome)
    {
      if outcome.Ok? {
        var page := outcome.body.items;
        if reset {
          items := page;
          offset := |page|;
        } else {
          items := items + page;
          offset := offset + |page|;
        }
        hasMore := outcome.body.pagination.hasMore;
      } else {
        error := Some(ErrorMessage(outcome));
      }
      loading := false;
    }

    /** `refetch()`: offset 0, then a reset fetch. */
    method Refetch() returns (request: SearchParams)
      modifies this
      ensures request == Request(searchQuery, tag, limit, old(State()), true)
      ensures State() == RefetchStarted(old(State()))
    {
      offset := 0;
      request := BeginFetch(true);
    }

    /** `loadMore()`: the request sent, if any. */
    method LoadMore() returns (request: Option<SearchParams>)
      modifies this
      ensures request.Some? <==> LoadMoreStarted(old(State())).1
      ensures request.Some? ==> request.value == Request(searchQuery, tag, limit, old(State()), false)
      ensures State() == LoadMoreStarted(old(State())).0
    {
      if !loading && hasMore {
        var sent := BeginFetch(false);
        request := Some(sent);
      } else {
        request := None;
      }
    }
  }
}
