/** The vsomeip application as the core sees it: an object that records
    what was done to it. The real library is foreign code; here creating
    an application keeps its name and the configuration document it was
    given, and registering handlers, offering services, sending and
    starting or stopping are appended to or set in its fields. Which
    handler the library later calls for an incoming message is not
    modelled; the handler bodies are methods of the modules that
    register them. */
module Transport {
  import opened SomeIpTypes
  import opened Messages
  import opened Json

  /** The wildcard ids of vsomeip's `constants.hpp`. */
  const AnyService: ServiceId := 0xFFFF
  const AnyInstance: InstanceId := 0xFFFF
  const AnyMethod: MethodId := 0xFFFF

  /** The registration state reported to a state handler. */
  datatype State = Registered | Deregistered

  datatype Offer = Offer(
    serviceId: ServiceId, instanceId: InstanceId,
    majorVersion: MajorVersion, minorVersion: MinorVersion)

  /** A message handler registered for one (service, instance, method) key. */
  datatype Registration<H> = Registration(
    serviceId: ServiceId, instanceId: InstanceId, methodId: MethodId, handler: H)

  /** Everything the application has recorded, as one value. */
  datatype AppState<H, T> = AppState(
    name: string,
    configuration: Json,
    messageHandlers: seq<Registration<H>>,
    stateHandlers: seq<T>,
    offers: seq<Offer>,
    sent: seq<Message>,
    running: bool)

  /** An application whose message handlers are of type `H` and whose
      state handlers are of type `T`. */
  class Application<H, T> {
    var name: string
    var configuration: Json
    var messageHandlers: seq<Registration<H>>
    var stateHandlers: seq<T>
    var offers: seq<Offer>
    var sent: seq<Message>
    var running: bool

    function Recorded(): AppState<H, T>
      reads this
    {
      AppState(name, configuration, messageHandlers, stateHandlers, offers, sent, running)
    }

    /** `create_application_with` after a successful `init`: a named
        application that has recorded nothing yet. */
    constructor (name: string, configuration: Json)
      ensures Recorded() == AppState(name, configuration, [], [], [], [], false)
    {
      this.name := name;
      this.configuration := configuration;
      messageHandlers := [];
      stateHandlers := [];
      offers := [];
      sent := [];
      running := false;
    }

    method RegisterMessageHandler(serviceId: ServiceId, instanceId: InstanceId, methodId: MethodId, handler: H)
      modifies this
      ensures Recorded() == old(Recorded()).(messageHandlers :=
        old(messageHandlers) + [Registration(serviceId, instanceId, methodId, handler)])
    {
      messageHandlers := messageHandlers + [Registration(serviceId, instanceId, methodId, handler)];
    }

    method RegisterStateHandler(handler: T)
      modifies this
      ensures Recorded() == old(Recorded()).(stateHandlers := old(stateHandlers) + [handler])
    {
      stateHandlers := stateHandlers + [handler];
    }

    method OfferService(serviceId: ServiceId, instanceId: InstanceId,
                        majorVersion: MajorVersion, minorVersion: MinorVersion)
      modifies this
      ensures Recorded() == old(Recorded()).(offers :=
        old(offers) + [Offer(serviceId, instanceId, majorVersion, minorVersion)])
    {
      offers := offers + [Offer(serviceId, instanceId, majorVersion, minorVersion)];
    }

    method Send(message: Message)
      modifies this
      ensures Recorded() == old(Recorded()).(sent := old(sent) + [message])
    {
      sent := sent + [message];
    }

    method Start()
      modifies this
      ensures Recorded() == old(Recorded()).(running := true)
    {
      running := true;
    }

    method Stop()
      modifies this
      ensures Recorded() == old(Recorded()).(running := false)
    {
      running := false;
    }
  }
}
