/** The table that sends each incoming message to the handler registered for
    its type tag. */
module Routing {
  /** A registered handler, known by a name and the message type it declares. */
  datatype Handler = Handler(name: string, messageType: string)

  /** What happened to one routed message. A handler's exception is caught and
      logged inside `route`, so it surfaces here as an outcome, never as a failure. */
  datatype RouteOutcome = Handled(handler: Handler) | HandlerFailed(handler: Handler) | Unhandled

  class MessageRouter {
    var handlers: map<string, Handler>

    /** Every handler sits under the type it declares. */
    ghost predicate Valid()
      reads this
    {
      forall t :: t in handlers ==> handlers[t].messageType == t
    }

    constructor ()
      ensures Valid() && handlers == map[]
    {
      handlers := map[];
    }

    /** `registerHandler`: keyed by the handler's own type; a second handler for
        the same type replaces the first. */
    method RegisterHandler(h: Handler)
      requires Valid()
      modifies this
      ensures Valid()
      ensures handlers == old(handlers)[h.messageType := h]
      ensures HandlerCount() == old(HandlerCount()) + (if h.messageType in old(handlers) then 0 else 1)
    {
      handlers := handlers[h.messageType := h];
    }

    /** `route`: invokes exactly the handler registered for the type, or none.
        `throws` says whether that handler raises. */
    method Route(messageType: string, throws: Handler -> bool) returns (o: RouteOutcome)
      requires Valid()
      ensures o.Unhandled? <==> messageType !in handlers
      ensures !o.Unhandled? ==> o.handler == handlers[messageType] && o.handler.messageType == messageType
      ensures o.HandlerFailed? <==> messageType in handlers && throws(handlers[messageType])
    {
      if messageType in handlers {
        var h := handlers[messageType];
        if throws(h) {
          o := HandlerFailed(h);
        } else {
          o := Handled(h);
        }
      } else {
        o := Unhandled;
      }
    }

    /** `getHandlerCount`: the number of distinct registered types. */
    function HandlerCount(): (n: nat)
      reads this
      ensures n == |handlers.Keys|
    {
      |handlers|
    }

    method ClearHandlers()
      modifies this
      ensures Valid() && handlers == map[]
      ensures HandlerCount() == 0
    {
      handlers := map[];
    }
  }

  /** Registering two handlers for the same type keeps one entry, the later one. */
  method ReRegisterReplaces(router: MessageRouter, first: Handler, second: Handler)
    requires router.Valid()
    requires first.messageType == second.messageType
    modifies router
    ensures router.HandlerCount() == old(router.HandlerCount()) + (if first.messageType in old(router.handlers) then 0 else 1)
    ensures second.messageType in router.handlers && router.handlers[second.messageType] == second
  {
    router.RegisterHandler(first);
    router.RegisterHandler(second);
  }
}
