/** The in-flight set of hooks/use-processing.ts.  `processItem` awaits the
    server, so it is split into the part before the request (`Begin`) and
    the part after the response (`Finish`); the response is a parameter. */
module UseProcessing {
  import opened Js

  /** What the awaited request produced: a body, a response that was not ok
      (with the `error` field of its body, if any), or a thrown value (an
      `Error` with its message, or something else). */
  datatype Response = Ok(data: string) | NotOk(errorField: Option<string>) | Threw(message: Option<string>)

  /** The callback `processItem` invokes for a finished request. */
  datatype Callback = OnSuccess(data: string) | OnError(message: string)

  /** The callback and its argument for a response: the data on success,
      otherwise the server's error, the thrown message, or a fixed text. */
  function CallbackFor(response: Response): (c: Callback)
    ensures c.OnSuccess? <==> response.Ok?
    ensures response.Ok? ==> c == OnSuccess(response.data)
    ensures response.NotOk? ==> c == OnError(OrElse(response.errorField, "Failed to process item"))
    ensures response.Threw? ==> c == OnError(if response.message.Some? then response.message.value else "An error occurred")
  {
    match response
    case Ok(data) => OnSuccess(data)
    case NotOk(e) => OnError(OrElse(e, "Failed to process item"))
    case Threw(m) => OnError(if m.Some? then m.value else "An error occurred")
  }

  /** A failed request never reports an empty message unless the thrown error had one. */
  lemma ErrorMessagesNonEmpty(response: Response)
    requires !response.Ok?
    requires response.Threw? && response.message.Some? ==> response.message.value != ""
    ensures CallbackFor(response).message != ""
  {
  }

  /** The set of item ids whose processing request is in flight. */
  class Processing {
    var processing: set<string>

    constructor ()
      ensures processing == {}
    {
      processing := {};
    }

    /** `isProcessing(itemId)`. */
    predicate IsProcessing(itemId: string)
      reads this
    {
      itemId in processing
    }

    /** `processItem(itemId)` up to the request: nothing happens for an id
        already in flight; otherwise the id is added and the request is sent. */
    method Begin(itemId: string) returns (sent: bool)
      modifies this
      ensures sent <==> itemId !in old(processing)
      ensures processing == old(processing) + {itemId}
      ensures IsProcessing(itemId)
    {
      if itemId in processing {
        return false;
      }
      processing := processing + {itemId};
      sent := true;
    }

    /** `processItem(itemId)` after the response: one callback, then the id
        leaves the set whatever happened. */
    method Finish(itemId: string, response: Response) returns (callback: Callback)
      modifies this
      ensures callback == CallbackFor(response)
      ensures processing == old(processing) - {itemId}
      ensures !IsProcessing(itemId)
    {
      callback := CallbackFor(response);
      processing := processing - {itemId};
    }
  }

  /** A request for an id that is not in flight: it is in flight while pending,
      exactly one callback runs, and afterwards the set is as before; no other
      id changes membership at any point. */
  method ProcessItem(p: Processing, itemId: string, response: Response) returns (callback: Callback)
    requires itemId !in p.processing
    modifies p
    ensures callback == CallbackFor(response)
    ensures p.processing == old(p.processing)
  {
    var sent := p.Begin(itemId);
    assert sent && p.IsProcessing(itemId);
    callback := p.Finish(itemId, response);
  }
}
