/** The request-count middleware: it counts every request outside the root and health
    routes, logs each counted request at a level chosen by its status code, and hands the
    response on only when that level is info. */
module Middleware {

  import opened Wrappers

  /** A response, known here by its status code. */
  datatype Response = Response(statusCode: int)

  /** What the next handler in the chain does: answers, or raises. */
  datatype Downstream = Responded(response: Response) | Failed(error: string)

  /** What `dispatch` does in turn: returns a value (Python's None included), or lets an
      exception through. */
  datatype Outcome = Returned(value: Option<Response>) | Propagated(error: string)

  datatype Level = Info | Error | Critical

  /** The routes that are neither counted nor logged. */
  predicate Excluded(path: string)
  {
    path == "/" || path == "/health"
  }

  /** The log level of a counted request's status code: server errors are critical, client
      errors are errors, everything else is info. */
  function Classify(statusCode: int): (level: Level)
    ensures level == Critical <==> 500 <= statusCode < 600
    ensures level == Error <==> 400 <= statusCode < 500
    ensures level == Info <==> statusCode < 400 || statusCode >= 600
  {
    if 500 <= statusCode < 600 then Critical
    else if 400 <= statusCode < 500 then Error
    else Info
  }

  class RequestCountMiddleware {
    var requestCount: int
    /** The levels logged so far, one per counted request, in order. */
    var levels: seq<Level>

    /** Every counted request leaves exactly one log line, so the count is the number of
        levels logged. */
    predicate Valid()
      reads this
    {
      requestCount == |levels|
    }

    constructor()
      ensures Valid()
      ensures requestCount == 0 && levels == []
    {
      requestCount := 0;
      levels := [];
    }

    /** dispatch. An excluded route is handed straight to the next handler, whose
        response or exception comes back unchanged. Any other request is counted before
        the next handler runs, so failures are counted too; the response comes back only
        when its status is logged at info, and an exception is logged as an error and
        swallowed, so dispatch then returns None. */
    method Dispatch(path: string, next: Downstream) returns (r: Outcome)
      requires Valid()
      modifies this
      ensures Valid()
      ensures Excluded(path) ==> requestCount == old(requestCount) && levels == old(levels)
      ensures Excluded(path) && next.Responded? ==> r == Returned(Some(next.response))
      ensures Excluded(path) && next.Failed? ==> r == Propagated(next.error)
      ensures !Excluded(path) ==> requestCount == old(requestCount) + 1 && r.Returned?
      ensures !Excluded(path) && next.Failed? ==>
                r.value.None? && levels == old(levels) + [Error]
      ensures !Excluded(path) && next.Responded? ==>
                levels == old(levels) + [Classify(next.response.statusCode)] &&
                r.value == (if Classify(next.response.statusCode) == Info then Some(next.response) else None)
    {
      if Excluded(path) {
        match next
        case Responded(response) => return Returned(Some(response));
        case Failed(error) => return Propagated(error);
      }
      requestCount := requestCount + 1;
      match next
      case Failed(_) =>
        levels := levels + [Error];
        r := Returned(None);
      case Responded(response) =>
        var level := Classify(response.statusCode);
        levels := levels + [level];
        if level == Info {
          r := Returned(Some(response));
        } else {
          r := Returned(None);
        }
    }
  }
}
