/** The envelope every wire message shares: an id and a type tag fixed at
    construction, and session, gateway and correlation ids that start null and
    are set later. */
module McpMessages {
  import opened Wrappers

  class McpMessage {
    const id: Option<string>
    const messageType: string
    var sessionId: Option<string>
    var gatewayId: Option<string>
    var correlationId: Option<string>

    constructor (id: Option<string>, messageType: string)
      ensures this.id == id && this.messageType == messageType
      ensures sessionId.None? && gatewayId.None? && correlationId.None?
    {
      this.id := id;
      this.messageType := messageType;
      sessionId, gatewayId, correlationId := None, None, None;
    }

    method SetSessionId(value: Option<string>)
      modifies this`sessionId
      ensures sessionId == value
      ensures gatewayId == old(gatewayId) && correlationId == old(correlationId)
    {
      sessionId := value;
    }

    method SetGatewayId(value: Option<string>)
      modifies this`gatewayId
      ensures gatewayId == value
      ensures sessionId == old(sessionId) && correlationId == old(correlationId)
    {
      gatewayId := value;
    }

    method SetCorrelationId(value: Option<string>)
      modifies this`correlationId
      ensures correlationId == value
      ensures sessionId == old(sessionId) && gatewayId == old(gatewayId)
    {
      correlationId := value;
    }
  }
}
