/** The client of the root `smip_core` crate. It creates an application
    whose single wildcard message handler forwards every Response to a
    channel, and `send` issues one request and then reads that channel
    until a reply for the same (service, instance, method) arrives. The
    channel is the client's `queue`; its running out stands for the
    channel being disconnected. The thread that runs the application is
    not modelled: the application is started before `Connect` returns. */
module SmipClient {
  import opened Wrappers
  import opened SomeIpTypes
  import opened Payload
  import opened Messages
  import opened Json
  import opened Transport
  import VsomeIpCompatLegacy

  /** One forwarded reply: service, instance, method and payload bytes. */
  datatype Inbound = Inbound(serviceId: ServiceId, instanceId: InstanceId, methodId: MethodId, payload: seq<byte>)

  /** The closure `Client::new` registers: forward responses to the channel. */
  datatype Observer = ForwardResponses

  /** The client registers no state handler. */
  datatype NoStateHandler = NoStateHandler

  datatype ClientError =
    | ApplicationInitError
    | NoResponseReceived
    | FromPayloadError(decodeError: DecodeError)

  type ClientApp = Application<Observer, NoStateHandler>

  /** What the observer pushes for a message: the message's addressing and
      payload if it is a Response, nothing otherwise. */
  function Forward(m: Message): (r: Option<Inbound>)
    ensures r.Some? <==> m.messageType == Response
    ensures r.Some? ==> r.value == Inbound(m.serviceId, m.instanceId, m.methodId, m.payload)
  {
    if m.messageType == Response then Some(Inbound(m.serviceId, m.instanceId, m.methodId, m.payload)) else None
  }

  predicate Matches(e: Inbound, serviceId: ServiceId, instanceId: InstanceId, methodId: MethodId) {
    e.serviceId == serviceId && e.instanceId == instanceId && e.methodId == methodId
  }

  /** The position of the first queued reply for the triple, if any. */
  function FirstMatch(q: seq<Inbound>, serviceId: ServiceId, instanceId: InstanceId, methodId: MethodId)
    : (r: Option<nat>)
    ensures r.Some? ==> r.value < |q| && Matches(q[r.value], serviceId, instanceId, methodId)
    ensures r.Some? ==> forall j :: 0 <= j < r.value ==> !Matches(q[j], serviceId, instanceId, methodId)
    ensures r.None? ==> forall j :: 0 <= j < |q| ==> !Matches(q[j], serviceId, instanceId, methodId)
  {
    if |q| == 0 then None
    else if Matches(q[0], serviceId, instanceId, methodId) then Some(0)
    else
      match FirstMatch(q[1..], serviceId, instanceId, methodId)
      case None => None
      case Some(k) => Some(k + 1)
  }

  /** The request `send` issues: a reliable Request to the triple whose
      payload is the encoded argument. */
  function RequestFor(serviceId: ServiceId, instanceId: InstanceId, methodId: MethodId, data: Value): (m: Message)
    ensures m.messageType == Request && m.reliable
    ensures m.serviceId == serviceId && m.instanceId == instanceId && m.methodId == methodId
  {
    NewRequest(true).(serviceId := serviceId, instanceId := instanceId, methodId := methodId,
      payload := Encode(data).value)
  }

  /** The server reads back exactly the argument the client sent. */
  lemma RequestCarriesArgument(serviceId: ServiceId, instanceId: InstanceId, methodId: MethodId, data: Value)
    ensures Decode(KindOf(data), RequestFor(serviceId, instanceId, methodId, data).payload) == Success(data)
  {
    DecodeEncode(data, []);
    assert Encode(data).value + [] == Encode(data).value;
  }

  /** Any response to the request `send` issues passes the observer and is
      recognised as the reply to it. */
  lemma ResponseToRequestIsMatched(serviceId: ServiceId, instanceId: InstanceId, methodId: MethodId,
                                   data: Value, response: Message)
    requires IsResponseTo(response, RequestFor(serviceId, instanceId, methodId, data))
    ensures Forward(response).Some?
    ensures Matches(Forward(response).value, serviceId, instanceId, methodId)
  {
  }

  /** The result `send` returns for a matching reply. */
  function DecodeReply(k: Kind, payload: seq<byte>): (r: Result<Value, ClientError>)
    ensures r.Success? <==> Decode(k, payload).Success?
    ensures r.Success? ==> r.value == Decode(k, payload).value && KindOf(r.value) == k
    ensures r.Failure? ==> r.error == FromPayloadError(Decode(k, payload).error)
  {
    match Decode(k, payload)
    case Success(v) => Success(v)
    case Failure(e) => Failure(FromPayloadError(e))
  }

  class Client {
    var app: ClientApp
    var queue: seq<Inbound>

    constructor (app: ClientApp)
      ensures this.app == app && queue == []
    {
      this.app := app;
      queue := [];
    }

    /** The observer at work: an incoming message is queued if it is a
        Response and dropped otherwise. */
    method OnMessage(m: Message)
      modifies this
      ensures app == old(app)
      ensures m.messageType == Response ==>
        queue == old(queue) + [Inbound(m.serviceId, m.instanceId, m.methodId, m.payload)]
      ensures m.messageType != Response ==> queue == old(queue)
    {
      var forwarded := Forward(m);
      if forwarded.Some? {
        queue := queue + [forwarded.value];
      }
    }

    /** `send`: sends one request for the triple, then consumes replies
        from the head of the queue up to and including the first one for
        that triple and decodes it as `retKind`. Replies for other triples
        are discarded; with none for this triple the queue ends empty and
        the call fails. */
    method Send(serviceId: ServiceId, instanceId: InstanceId, methodId: MethodId, data: Value, retKind: Kind)
      returns (r: Result<Value, ClientError>)
      modifies this, app
      ensures app == old(app)
      ensures app.Recorded() == old(app.Recorded()).(sent :=
        old(app.sent) + [RequestFor(serviceId, instanceId, methodId, data)])
      ensures var k := FirstMatch(old(queue), serviceId, instanceId, methodId);
        && (k.Some? ==> queue == old(queue)[k.value + 1..] && r == DecodeReply(retKind, old(queue)[k.value].payload))
        && (k.None? ==> queue == [] && r == Failure(NoResponseReceived))
    {
      var message := NewRequest(true);
      message := message.(serviceId := serviceId);
      message := message.(instanceId := instanceId);
      message := message.(methodId := methodId);
      EncodeNeverFails(data);
      message := message.(payload := Encode(data).value);
      app.Send(message);

      ghost var q0 := queue;
      ghost var k := FirstMatch(q0, serviceId, instanceId, methodId);
      var consumed := 0;
      while |queue| > 0
        invariant app == old(app)
        invariant consumed <= |q0| && queue == q0[consumed..]
        invariant forall j :: 0 <= j < consumed ==> !Matches(q0[j], serviceId, instanceId, methodId)
        invariant app.Recorded() == old(app.Recorded()).(sent :=
          old(app.sent) + [RequestFor(serviceId, instanceId, methodId, data)])
        decreases |queue|
      {
        var head := queue[0];
        queue := queue[1..];
        consumed := consumed + 1;
        if Matches(head, serviceId, instanceId, methodId) {
          assert k == Some(consumed - 1) by {
            FirstMatchUnique(q0, serviceId, instanceId, methodId, consumed - 1);
          }
          return DecodeReply(retKind, head.payload);
        }
      }
      assert consumed == |q0|;
      return Failure(NoResponseReceived);
    }
  }

  /** A position that matches with no match before it is the first match. */
  lemma FirstMatchUnique(q: seq<Inbound>, serviceId: ServiceId, instanceId: InstanceId, methodId: MethodId, i: nat)
    requires i < |q| && Matches(q[i], serviceId, instanceId, methodId)
    requires forall j :: 0 <= j < i ==> !Matches(q[j], serviceId, instanceId, methodId)
    ensures FirstMatch(q, serviceId, instanceId, methodId) == Some(i)
  {
  }

  /** `Client::new`: builds the document from the configuration, creates
      the application under the configured name (`initOk` is the library's
      `init` result), registers the observer for every service, instance
      and method, and starts the application. */
  method Connect(config: VsomeIpCompatLegacy.VsomeIpConfig, initOk: bool) returns (r: Result<Client, ClientError>)
    ensures r.Success? <==> initOk
    ensures r.Failure? ==> r.error == ApplicationInitError
    ensures r.Success? ==>
      && fresh(r.value) && fresh(r.value.app) && r.value.queue == []
      && r.value.app.Recorded() == AppState(config.appName, VsomeIpCompatLegacy.Build(config),
           [Registration(AnyService, AnyInstance, AnyMethod, ForwardResponses)], [], [], [], true)
  {
    var document := VsomeIpCompatLegacy.Build(config);
    if !initOk {
      return Failure(ApplicationInitError);
    }
    var app := new Application(config.appName, document);
    app.RegisterMessageHandler(AnyService, AnyInstance, AnyMethod, ForwardResponses);
    app.Start();
    var client := new Client(app);
    return Success(client);
  }

  /** Dropping the client stops its application. */
  method Close(client: Client)
    modifies client.app
    ensures client.app.Recorded() == old(client.app.Recorded()).(running := false)
  {
    client.app.Stop();
  }
}
