/** The records agents exchange through the server: the four message kinds and the
    message classes, each constructor carrying the defaults its class declares. */
module Messages {
  import opened Values

  /** The kinds of message; a message has exactly one of them. */
  datatype MessageType = Request | Response | Notification | Error

  /** The string value of each kind (the enumeration derives from `str`). */
  function WireName(t: MessageType): string
  {
    match t
    case Request => "request"
    case Response => "response"
    case Notification => "notification"
    case Error => "error"
  }

  /** Looking a kind up by its value, as `MessageType(s)` does; `None` where Python raises
      `ValueError`. */
  function TypeOfWire(s: string): (r: Option<MessageType>)
    ensures r.Some? ==> WireName(r.value) == s
    ensures r.None? ==> forall t :: WireName(t) != s
  {
    if s == "request" then Some(Request)
    else if s == "response" then Some(Response)
    else if s == "notification" then Some(Notification)
    else if s == "error" then Some(Error)
    else None
  }

  /** Every kind is found again from its value, and no two kinds share a value. */
  lemma WireRoundTrip(t: MessageType, u: MessageType)
    ensures TypeOfWire(WireName(t)) == Some(t)
    ensures WireName(t) == WireName(u) ==> t == u
  {
  }

  /** A point in time. The default timestamp of every message class is evaluated once,
      when the class is defined, so it is one fixed instant for all messages built without
      an explicit timestamp; its value plays no part in the model. */
  type Timestamp = int
  const ClassDefinitionTime: Timestamp := 0

  /** One keyword argument of a tool call. The parameters of a request are an ordered
      dictionary: the order decides which bad keyword a failed call reports. */
  datatype Param = Param(name: string, value: Json)
  type Params = seq<Param>

  /** The message classes. Omitted arguments take the class defaults: the subclasses fix
      their own kind, the correlation id is absent, a response succeeds with no error. */
  datatype Message =
    | MCPMessage(messageId: string, messageType: MessageType, fromAgent: string, toAgent: string,
                 content: map<string, Json>,
                 timestamp: Timestamp := ClassDefinitionTime, correlationId: Option<string> := None)
    | MCPRequest(messageId: string, fromAgent: string, toAgent: string, content: map<string, Json>,
                 tool: string, parameters: Params,
                 messageType: MessageType := Request,
                 timestamp: Timestamp := ClassDefinitionTime, correlationId: Option<string> := None)
    | MCPResponse(messageId: string, fromAgent: string, toAgent: string, content: map<string, Json>,
                  result: Json, success: bool := true, errorMessage: Option<string> := None,
                  messageType: MessageType := Response,
                  timestamp: Timestamp := ClassDefinitionTime, correlationId: Option<string> := None)
    | MCPNotification(messageId: string, fromAgent: string, toAgent: string, content: map<string, Json>,
                      event: string, data: map<string, Json>,
                      messageType: MessageType := Notification,
                      timestamp: Timestamp := ClassDefinitionTime, correlationId: Option<string> := None)

  /** A message built without a correlation id has none. */
  lemma MessageDefaults(id: string, kind: MessageType, from: string, to: string, content: map<string, Json>)
    ensures MCPMessage(id, kind, from, to, content).correlationId == None
    ensures MCPMessage(id, kind, from, to, content).timestamp == ClassDefinitionTime
  {
  }

  /** A request built with only its required fields is of kind request, carries the tool
      and the parameters it was given, and has no correlation id. */
  lemma RequestDefaults(id: string, from: string, to: string, content: map<string, Json>, tool: string, params: Params)
    ensures var m := MCPRequest(id, from, to, content, tool, params);
      m.messageType == Request && m.tool == tool && m.parameters == params && m.correlationId == None
  {
  }

  /** A response built with only its required fields is of kind response and successful,
      with no error message and no correlation id. */
  lemma ResponseDefaults(id: string, from: string, to: string, content: map<string, Json>, result: Json)
    ensures var m := MCPResponse(id, from, to, content, result);
      m.messageType == Response && m.success && m.errorMessage == None && m.correlationId == None
  {
  }

  /** A notification built with only its required fields is of kind notification and
      carries its event name and data. */
  lemma NotificationDefaults(id: string, from: string, to: string, content: map<string, Json>, event: string, data: map<string, Json>)
    ensures var m := MCPNotification(id, from, to, content, event, data);
      m.messageType == Notification && m.event == event && m.data == data && m.correlationId == None
  {
  }
}
