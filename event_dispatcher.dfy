/** The in-process event dispatcher: one handler per event type, registered by decorator,
    and the two registrations the module makes when it is imported. */
module Events {

  import opened PyData

  /** A registered coroutine function, known by its name. */
  datatype Handler = Handler(name: string)

  const HandleGoesOnline: Handler := Handler("handle_goes_online")
  const HandleMessage: Handler := Handler("handle_message")

  /** The warning `dispatch` logs for an event type nobody handles. */
  function NoHandlerWarning(eventType: string): (w: string)
    ensures |w| == 22 + |eventType| && w[22..] == eventType
  {
    "No handler for event: " + eventType
  }

  class EventDispatcher {
    var handlers: map<string, Handler>
    /** The handler calls made so far, with their payloads, in order. */
    var calls: seq<(Handler, PyValue)>
    /** The warnings logged so far, in order. */
    var warnings: seq<string>

    constructor()
      ensures handlers == map[] && calls == [] && warnings == []
    {
      handlers := map[];
      calls := [];
      warnings := [];
    }

    /** `on(event_type)(func)`: register `func` for the event type, replacing whatever was
        registered before, and hand `func` back unchanged. */
    method On(eventType: string, func: Handler) returns (r: Handler)
      modifies this
      ensures r == func
      ensures handlers == old(handlers)[eventType := func]
      ensures calls == old(calls) && warnings == old(warnings)
    {
      handlers := handlers[eventType := func];
      r := func;
    }

    /** dispatch: call the registered handler once with the payload, or log a warning and
        call nothing. A handler never changes the registrations. */
    method Dispatch(eventType: string, payload: PyValue)
      modifies this
      ensures handlers == old(handlers)
      ensures eventType in handlers ==>
                calls == old(calls) + [(handlers[eventType], payload)] && warnings == old(warnings)
      ensures eventType !in handlers ==>
                calls == old(calls) && warnings == old(warnings) + [NoHandlerWarning(eventType)]
    {
      if eventType in handlers {
        calls := calls + [(handlers[eventType], payload)];
      } else {
        warnings := warnings + [NoHandlerWarning(eventType)];
      }
    }
  }

  /** The module-level dispatcher after its two decorators have run. */
  method RegisteredDispatcher() returns (d: EventDispatcher)
    ensures fresh(d)
    ensures d.handlers == map["goes_online" := HandleGoesOnline, "message" := HandleMessage]
    ensures d.calls == [] && d.warnings == []
  {
    d := new EventDispatcher();
    var _ := d.On("goes_online", HandleGoesOnline);
    var _ := d.On("message", HandleMessage);
  }
}
