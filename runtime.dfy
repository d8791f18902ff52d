/** The server runtime of `crates/smip_core`: it collects services, turns
    them into a vsomeip configuration and, when run, creates the
    application and registers, for every service, a state handler that
    offers the service and one message handler per method. The handler
    bodies run a method's callback on the service state and send what
    `handle_response` decides. */
module SmipRuntime {
  import opened Wrappers
  import opened SomeIpTypes
  import opened Payload
  import opened Messages
  import opened SmipTypes
  import opened Json
  import opened Transport
  import MethodsMacro
  import VsomeIpCompat

  /** `RuntimeConfig`: the application's name and id, an optional address
      and netmask, and the instance id every service is offered under. */
  datatype RuntimeConfig = RuntimeConfig(
    name: string, id: u16, addr: Option<IpAddr>, netmask: Option<IpAddr>, instanceId: InstanceId)

  /** `RuntimeConfig::new`. */
  function NewRuntimeConfig(name: string, id: u16, instanceId: InstanceId): (c: RuntimeConfig)
    ensures c.name == name && c.id == id && c.instanceId == instanceId
    ensures c.addr.None? && c.netmask.None?
  {
    RuntimeConfig(name, id, None, None, instanceId)
  }

  /** `RuntimeConfig::addr`, with the address already resolved. */
  function ConfigAddr(c: RuntimeConfig, addr: IpAddr): (r: RuntimeConfig)
    ensures r.addr == Some(addr) && r.(addr := c.addr) == c
  {
    c.(addr := Some(addr))
  }

  /** `RuntimeConfig::netmask`, with the netmask already resolved. */
  function ConfigNetmask(c: RuntimeConfig, netmask: IpAddr): (r: RuntimeConfig)
    ensures r.netmask == Some(netmask) && r.(netmask := c.netmask) == c
  {
    c.(netmask := Some(netmask))
  }

  datatype VSomeIpError = ApplicationInitError

  /** The service state shared by a service's handlers (`Arc<Mutex<S>>`). */
  class ServiceCell<S> {
    var state: S

    constructor (state: S)
      ensures this.state == state
    {
      this.state := state;
    }
  }

  /** The closure registered for one method: the shared service state and
      the method's callback. */
  datatype MethodHandler<!S> = MethodHandler(cell: ServiceCell<S>, f: Callback<S>)

  /** The closure registered as state handler: the offer it makes once the
      application is registered. */
  datatype StateHandler = OfferOnRegistered(offer: Offer)

  /** What `service` stores for `run`: the service's definition, its
      initial state and its registered methods. */
  datatype Creator<!S> = Creator(definition: ServiceDefinition, service: S, methods: seq<Method<S>>)

  /** What `handle_response` sends for a callback's result: a response of
      its own, nothing, or an empty error response to the request. */
  function HandleResponse(request: Message, result: Result<Option<Message>, SmipError>): (r: Option<Message>)
    requires !(result.Failure? && result.error.NoResponse?)
    ensures result.Success? ==> r == result.value
    ensures result.Failure? ==>
      && r.Some? && IsResponseTo(r.value, request) && r.value.payload == []
      && r.value.returnCode == (if result.error.FromPayloadError? then MalformedMessage else NotOk)
  {
    match result
    case Success(response) => response
    case Failure(FromPayloadError(_)) => Some(NewResponse(request).(returnCode := MalformedMessage))
    case Failure(ToPayloadError(_)) => Some(NewResponse(request).(returnCode := NotOk))
  }

  function AsSeq<T>(o: Option<T>): (s: seq<T>)
    ensures o.Some? ==> s == [o.value]
    ensures o.None? ==> s == []
  {
    if o.Some? then [o.value] else []
  }

  /** A method without a return type answers only a request whose argument
      does not decode, and then with `MalformedMessage`. */
  lemma FireAndForgetRepliesOnlyWhenMalformed<S>(f: Callback<S>, service: S, request: Message)
    requires !f.answers
    ensures var reply := HandleResponse(request, Invoke(f, service, request).result);
      && (reply.Some? <==> f.takesArg && Decode(f.impl.argKind, request.payload).Failure?)
      && (reply.Some? ==> reply.value.returnCode == MalformedMessage && IsResponseTo(reply.value, request))
  {
  }

  /** A method with a return type always answers: with `Ok` and the encoded
      result when the argument decodes, with `MalformedMessage` otherwise. */
  lemma AnsweringMethodAlwaysReplies<S>(f: Callback<S>, service: S, request: Message)
    requires f.answers
    ensures var reply := HandleResponse(request, Invoke(f, service, request).result);
      && reply.Some? && IsResponseTo(reply.value, request)
      && (reply.value.returnCode == ReturnCode.Ok <==>
            !(f.takesArg && Decode(f.impl.argKind, request.payload).Failure?))
  {
    if !(f.takesArg && Decode(f.impl.argKind, request.payload).Failure?) {
      var arg := if f.takesArg then Decode(f.impl.argKind, request.payload).value else Unit;
      EncodeNeverFails(f.impl.body(service, arg).1);
    }
  }

  /** The message handler's body: lock the service, run the callback and
      send what `handle_response` decides. */
  method RunMessageHandler<S>(app: Application<MethodHandler<S>, StateHandler>, h: MethodHandler<S>, request: Message)
    modifies app, h.cell
    ensures h.cell.state == Invoke(h.f, old(h.cell.state), request).service
    ensures app.Recorded() == old(app.Recorded()).(sent := old(app.sent)
      + AsSeq(HandleResponse(request, Invoke(h.f, old(h.cell.state), request).result)))
  {
    var outcome := Invoke(h.f, h.cell.state, request);
    h.cell.state := outcome.service;
    var reply := HandleResponse(request, outcome.result);
    if reply.Some? {
      app.Send(reply.value);
    }
  }

  /** The state handler's body: offer the service once registered. */
  method RunStateHandler<S>(app: Application<MethodHandler<S>, StateHandler>, h: StateHandler, state: State)
    modifies app
    ensures app.Recorded() == old(app.Recorded()).(offers :=
      old(app.offers) + (if state == Registered then [h.offer] else []))
  {
    if state == Registered {
      app.OfferService(h.offer.serviceId, h.offer.instanceId, h.offer.majorVersion, h.offer.minorVersion);
    }
  }

  /** The state handler a creator registers. */
  function StateHandlerOf<S>(c: Creator<S>, instanceId: InstanceId): StateHandler {
    OfferOnRegistered(Offer(c.definition.id, instanceId, c.definition.majorVersion, c.definition.minorVersion))
  }

  /** The message handlers a creator registers, one per method, in order. */
  function HandlersOf<S>(c: Creator<S>, instanceId: InstanceId, cell: ServiceCell<S>)
    : (r: seq<Registration<MethodHandler<S>>>)
    ensures |r| == |c.methods|
    ensures forall k :: 0 <= k < |r| ==>
      r[k] == Registration(c.definition.id, instanceId, c.methods[k].id, MethodHandler(cell, c.methods[k].f))
  {
    seq(|c.methods|, k requires 0 <= k < |c.methods| =>
      Registration(c.definition.id, instanceId, c.methods[k].id, MethodHandler(cell, c.methods[k].f)))
  }

  /** The creator closure: registers the state handler, wraps the service
      state in a fresh shared cell and registers one message handler per
      method on it. */
  method RunCreator<S>(app: Application<MethodHandler<S>, StateHandler>, c: Creator<S>, instanceId: InstanceId)
    returns (cell: ServiceCell<S>)
    modifies app
    ensures fresh(cell) && cell.state == c.service
    ensures app.Recorded() == old(app.Recorded()).(
      stateHandlers := old(app.stateHandlers) + [StateHandlerOf(c, instanceId)],
      messageHandlers := old(app.messageHandlers) + HandlersOf(c, instanceId, cell))
  {
    app.RegisterStateHandler(StateHandlerOf(c, instanceId));
    cell := new ServiceCell(c.service);
    ghost var before := app.Recorded();
    for k := 0 to |c.methods|
      invariant cell.state == c.service
      invariant app.Recorded() == before.(messageHandlers :=
        before.messageHandlers + HandlersOf(c, instanceId, cell)[..k])
    {
      app.RegisterMessageHandler(c.definition.id, instanceId, c.methods[k].id, MethodHandler(cell, c.methods[k].f));
      assert HandlersOf(c, instanceId, cell)[..k + 1]
          == HandlersOf(c, instanceId, cell)[..k] + [HandlersOf(c, instanceId, cell)[k]];
    }
    assert HandlersOf(c, instanceId, cell)[..|c.methods|] == HandlersOf(c, instanceId, cell);
  }

  /** The state handlers of a list of creators, in order. */
  function AllStateHandlers<S>(cs: seq<Creator<S>>, instanceId: InstanceId): (r: seq<StateHandler>)
    ensures |r| == |cs|
    ensures forall k :: 0 <= k < |cs| ==> r[k] == StateHandlerOf(cs[k], instanceId)
  {
    seq(|cs|, k requires 0 <= k < |cs| => StateHandlerOf(cs[k], instanceId))
  }

  /** The message handlers of a list of creators, creator by creator. */
  function AllHandlers<S>(cs: seq<Creator<S>>, instanceId: InstanceId, cells: seq<ServiceCell<S>>)
    : seq<Registration<MethodHandler<S>>>
    requires |cells| == |cs|
  {
    if |cs| == 0 then []
    else
      var n := |cs| - 1;
      AllHandlers(cs[..n], instanceId, cells[..n]) + HandlersOf(cs[n], instanceId, cells[n])
  }

  /** The (service, instance, method) key of each registration. */
  function Keys<H>(rs: seq<Registration<H>>): (r: seq<(ServiceId, InstanceId, MethodId)>)
    ensures |r| == |rs|
    ensures forall k :: 0 <= k < |rs| ==> r[k] == (rs[k].serviceId, rs[k].instanceId, rs[k].methodId)
  {
    seq(|rs|, k requires 0 <= k < |rs| => (rs[k].serviceId, rs[k].instanceId, rs[k].methodId))
  }

  /** The keys each creator's methods are registered under: its service id,
      the runtime's instance id and the method's id. */
  function ExpectedKeys<S>(cs: seq<Creator<S>>, instanceId: InstanceId): seq<(ServiceId, InstanceId, MethodId)> {
    if |cs| == 0 then []
    else
      var c := cs[|cs| - 1];
      var own := seq(|c.methods|, k requires 0 <= k < |c.methods| => (c.definition.id, instanceId, c.methods[k].id));
      ExpectedKeys(cs[..|cs| - 1], instanceId) + own
  }

  /** However the service cells are allocated, the registrations are keyed
      by (service id, instance id, method id), service by service and
      method by method in registration order. */
  lemma {:induction false} HandlerKeys<S>(cs: seq<Creator<S>>, instanceId: InstanceId, cells: seq<ServiceCell<S>>)
    requires |cells| == |cs|
    ensures Keys(AllHandlers(cs, instanceId, cells)) == ExpectedKeys(cs, instanceId)
  {
    if |cs| > 0 {
      var n := |cs| - 1;
      HandlerKeys(cs[..n], instanceId, cells[..n]);
      var front := AllHandlers(cs[..n], instanceId, cells[..n]);
      var last := HandlersOf(cs[n], instanceId, cells[n]);
      assert Keys(front + last) == Keys(front) + Keys(last);
    }
  }

  /** Running one more creator adds its state handler and its message
      handlers after those of the creators before it. */
  lemma HandlersStep<S>(cs: seq<Creator<S>>, instanceId: InstanceId, cells: seq<ServiceCell<S>>,
                        cell: ServiceCell<S>, k: nat)
    requires k < |cs| && |cells| == k
    ensures AllHandlers(cs[..k + 1], instanceId, cells + [cell])
      == AllHandlers(cs[..k], instanceId, cells) + HandlersOf(cs[k], instanceId, cell)
    ensures AllStateHandlers(cs[..k + 1], instanceId)
      == AllStateHandlers(cs[..k], instanceId) + [StateHandlerOf(cs[k], instanceId)]
  {
    assert cs[..k + 1][..k] == cs[..k];
    assert (cells + [cell])[..k] == cells;
  }

  /** `Runtime`. Its service types are all `S` here. */
  class Runtime<S> {
    var config: RuntimeConfig
    var vsomeipConfig: VsomeIpCompat.VsomeIpConfig
    var creators: seq<Creator<S>>

    /** `Runtime::new`: names the application after the configuration,
        uses its instance id and routes through itself. */
    constructor (config: RuntimeConfig)
      ensures this.config == config && creators == []
      ensures vsomeipConfig == InitialVsomeIpConfig(config)
    {
      this.config := config;
      vsomeipConfig := InitialVsomeIpConfig(config);
      creators := [];
    }

    /** `service`: registers the service's methods into a fresh builder,
        adds a TCP service entry on `port` to the configuration and keeps
        a creator for `run`. */
    method Service(definition: ServiceDefinition, service: S, derived: MethodsMacro.ServiceMethodsImpl,
                   impls: string -> Implementation<S>, port: Port)
      modifies this
      ensures config == old(config)
      ensures vsomeipConfig == VsomeIpCompat.Service(old(vsomeipConfig),
        VsomeIpCompat.ServiceConfig(definition.id, VsomeIpCompat.Tcp(port), 0, 0))
      ensures creators == old(creators) + [Creator(definition, service, MethodsMacro.Bind(derived.entries, impls))]
    {
      var builder := new MethodsBuilder();
      MethodsMacro.RegisterMethods(derived, impls, builder);
      var methods := builder.methods;
      assert methods == MethodsMacro.Bind(derived.entries, impls);
      vsomeipConfig := VsomeIpCompat.Service(vsomeipConfig,
        VsomeIpCompat.DefaultServiceConfig().(id := definition.id, connType := VsomeIpCompat.Tcp(port)));
      creators := creators + [Creator(definition, service, methods)];
    }

    /** `run`: builds the configuration document, creates the application
        with it (`initOk` is the library's `init` result), runs the
        creators in order with the configured instance id and starts the
        application. `cells` are the service states the handlers share. */
    method Run(iface: Option<VsomeIpCompat.Ipv4Net>, initOk: bool)
      returns (r: Result<Application<MethodHandler<S>, StateHandler>, VSomeIpError>, ghost cells: seq<ServiceCell<S>>)
      requires VsomeIpCompat.Build(vsomeipConfig, iface).Some?
      ensures r.Success? <==> initOk
      ensures r.Failure? ==> r.error == ApplicationInitError
      ensures r.Success? ==>
        && fresh(r.value) && |cells| == |creators|
        && (forall k :: 0 <= k < |cells| ==> fresh(cells[k]) && cells[k].state == creators[k].service)
        && r.value.Recorded() == AppState(config.name, VsomeIpCompat.Build(vsomeipConfig, iface).value,
             AllHandlers(creators, config.instanceId, cells), AllStateHandlers(creators, config.instanceId),
             [], [], true)
    {
      var document := VsomeIpCompat.Build(vsomeipConfig, iface).value;
      if !initOk {
        return Failure(ApplicationInitError), [];
      }
      var cs, instanceId := creators, config.instanceId;
      var app := new Application(config.name, document);
      ghost var initial := app.Recorded();
      cells := [];
      for k := 0 to |cs|
        invariant |cells| == k
        invariant forall j :: 0 <= j < k ==> fresh(cells[j]) && cells[j].state == cs[j].service
        invariant app.Recorded() == initial.(messageHandlers := AllHandlers(cs[..k], instanceId, cells),
          stateHandlers := AllStateHandlers(cs[..k], instanceId))
      {
        var cell := RunCreator(app, cs[k], instanceId);
        HandlersStep(cs, instanceId, cells, cell, k);
        cells := cells + [cell];
      }
      assert cs[..|cs|] == cs;
      app.Start();
      return Success(app), cells;
    }
  }

  /** The vsomeip configuration `Runtime::new` starts from. */
  function InitialVsomeIpConfig(config: RuntimeConfig): (c: VsomeIpCompat.VsomeIpConfig)
    ensures c.appName == config.name && c.appId == config.id && c.instanceId == config.instanceId
    ensures c.routing == Some(config.name)
    ensures c.services == [] && !c.serviceDiscovery && c.addrMode == VsomeIpCompat.Unicast
    ensures c.addr.None? && c.netmask.None?
  {
    VsomeIpCompat.New().(appName := config.name, appId := config.id,
      instanceId := config.instanceId, routing := Some(config.name))
  }

  /** The address and netmask of a `RuntimeConfig` never reach the vsomeip
      configuration: the runtime always takes them from the host's
      default interface. */
  lemma RuntimeAddrNotForwarded(config: RuntimeConfig, addr: IpAddr, netmask: IpAddr)
    ensures InitialVsomeIpConfig(ConfigNetmask(ConfigAddr(config, addr), netmask)) == InitialVsomeIpConfig(config)
    ensures VsomeIpCompat.Build(InitialVsomeIpConfig(config), None).None?
  {
  }
}
