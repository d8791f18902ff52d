/** The transport's message object, as a plain record: header fields plus
    payload bytes. Only the two factory functions the core uses are
    modelled; the library's own setters are record updates. */
module Messages {
  import opened SomeIpTypes
  import opened Payload

  datatype Message = Message(
    serviceId: ServiceId,
    instanceId: InstanceId,
    methodId: MethodId,
    clientId: ClientId,
    sessionId: SessionId,
    interfaceVersion: InterfaceVersion,
    messageType: MessageType,
    returnCode: ReturnCode,
    reliable: bool,
    payload: seq<byte>)

  /** `Message::request(reliable)`: an empty message of type Request; the
      caller fills in the addressing and the payload, and the transport
      assigns the request id when it sends it. */
  function NewRequest(reliable: bool): (m: Message)
    ensures m.messageType == Request && m.returnCode == ReturnCode.Ok
    ensures m.reliable == reliable && m.payload == []
  {
    Message(0, 0, 0, 0, 0, 0, Request, ReturnCode.Ok, reliable, [])
  }

  /** `m` answers `request`: same addressing triple, same request id
      (client and session), and message type Response. */
  predicate IsResponseTo(m: Message, request: Message) {
    && m.serviceId == request.serviceId
    && m.instanceId == request.instanceId
    && m.methodId == request.methodId
    && m.clientId == request.clientId
    && m.sessionId == request.sessionId
    && m.messageType == Response
  }

  /** `Message::response(request)`: an empty response that copies the
      request id and addressing of the request. */
  function NewResponse(request: Message): (m: Message)
    ensures IsResponseTo(m, request)
    ensures m.returnCode == ReturnCode.Ok && m.payload == []
  {
    Message(request.serviceId, request.instanceId, request.methodId, request.clientId,
      request.sessionId, request.interfaceVersion, Response, ReturnCode.Ok,
      request.reliable, [])
  }

  /** A response never answers a different triple, so correlation by the
      triple cannot mix up two requests for different methods. */
  lemma ResponseKeepsTriple(request: Message, other: Message)
    requires (request.serviceId, request.instanceId, request.methodId)
          != (other.serviceId, other.instanceId, other.methodId)
    ensures !IsResponseTo(NewResponse(request), other)
  {
  }
}
