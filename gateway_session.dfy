/** One gateway's WebSocket session as the message handlers see it: whether it
    has authenticated, the identity and permissions it was granted, and the
    frames the server has put on the connection so far. */
module Sessions {
  import opened Wrappers
  import opened McpRequests
  import opened McpResponses
  import opened GatewayAuthResponses

  /** A decoded incoming message, by the class the codec produced. */
  datatype Incoming =
    | AuthRequest(id: Option<string>, gatewayId: Option<string>, token: Option<string>)
    | Request(request: McpRequest)
    | OtherMessage(messageType: string)

  /** A frame the server puts on the connection, in order. Turning a message into
      JSON text is the codec's business and is not modelled. */
  datatype Outbound =
    | SendAck(ack: AuthResponse)
    | SendResponse(response: McpResponse)
    | Close(code: int, reason: string)

  datatype SessionState = SessionState(
    id: string,
    authenticated: bool,
    gatewayId: Option<string>,
    permissions: Option<set<string>>,
    transcript: seq<Outbound>)

  class GatewaySession {
    const id: string
    var authenticated: bool
    var gatewayId: Option<string>
    var permissions: Option<set<string>>
    var transcript: seq<Outbound>

    function State(): SessionState
      reads this
    {
      SessionState(id, authenticated, gatewayId, permissions, transcript)
    }

    /** A new connection: unauthenticated, anonymous, nothing sent. */
    constructor (id: string)
      ensures State() == SessionState(id, false, None, None, [])
    {
      this.id := id;
      authenticated, gatewayId, permissions, transcript := false, None, None, [];
    }

    method SetGatewayId(value: Option<string>)
      modifies this`gatewayId
      ensures State() == old(State()).(gatewayId := value)
    {
      gatewayId := value;
    }

    method SetPermissions(value: Option<set<string>>)
      modifies this`permissions
      ensures State() == old(State()).(permissions := value)
    {
      permissions := value;
    }

    /** What the session manager's `markAuthenticated` does to the session itself. */
    method MarkAuthenticated()
      modifies this`authenticated
      ensures State() == old(State()).(authenticated := true)
    {
      authenticated := true;
    }

    method Send(frame: Outbound)
      requires !frame.Close?
      modifies this`transcript
      ensures State() == old(State()).(transcript := old(transcript) + [frame])
    {
      transcript := transcript + [frame];
    }

    method Close(code: int, reason: string)
      modifies this`transcript
      ensures State() == old(State()).(transcript := old(transcript) + [Outbound.Close(code, reason)])
    {
      transcript := transcript + [Outbound.Close(code, reason)];
    }
  }
}
