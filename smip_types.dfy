/** The registration vocabulary of the server side: a service's identity,
    the per-method callbacks the methods macro generates, and the
    append-only builder they are collected in. */
module SmipTypes {
  import opened Wrappers
  import opened SomeIpTypes
  import opened Payload
  import opened Messages

  /** What a service type reports about itself (`ServiceDefinition`). */
  datatype ServiceDefinition = ServiceDefinition(
    id: ServiceId, majorVersion: MajorVersion, minorVersion: MinorVersion)

  /** The errors a generated callback reports to the runtime. */
  datatype SmipError =
    | FromPayloadError(decodeError: DecodeError)
    | ToPayloadError(encodeError: EncodeError)
    | NoResponse

  /** The user's method body behind a callback: the kind of its argument and
      what it does to the service state and returns. A method without an
      argument is called with `Unit`, one without a return type returns `Unit`. */
  datatype Implementation<!S> = Implementation(argKind: Kind, body: (S, Value) -> (S, Value))

  /** The closure the methods macro generates for one method: whether it
      decodes an argument from the request payload and whether it answers. */
  datatype Callback<!S> = Callback(takesArg: bool, answers: bool, impl: Implementation<S>)

  /** The callback's outcome and the service state after it. */
  datatype Outcome<!S> = Outcome(service: S, result: Result<Option<Message>, SmipError>)

  /** Running a generated callback on the service state and a request.
      A payload that does not decode stops the callback before the body
      runs; a method without a return type answers `None`; otherwise the
      encoded result goes out in a response to the request. */
  function Invoke<S>(f: Callback<S>, service: S, request: Message): (o: Outcome<S>)
    ensures !(o.result.Failure? && o.result.error.NoResponse?)
    ensures o.result.Success? && o.result.value.Some? ==>
      f.answers && IsResponseTo(o.result.value.value, request)
      && o.result.value.value.returnCode == ReturnCode.Ok
  {
    if f.takesArg then
      match Decode(f.impl.argKind, request.payload)
      case Failure(e) => Outcome(service, Failure(FromPayloadError(e)))
      case Success(arg) => Reply(f, f.impl.body(service, arg), request)
    else
      Reply(f, f.impl.body(service, Unit), request)
  }

  /** The tail of a generated callback, after the body returned `out`. */
  function Reply<S>(f: Callback<S>, out: (S, Value), request: Message): (o: Outcome<S>)
    ensures o.service == out.0
    ensures o.result.Success? && o.result.value.Some? ==>
      IsResponseTo(o.result.value.value, request)
      && o.result.value.value.returnCode == ReturnCode.Ok
  {
    if f.answers then
      match Encode(out.1)
      case Failure(e) => Outcome(out.0, Failure(ToPayloadError(e)))
      case Success(bytes) => Outcome(out.0, Success(Some(NewResponse(request).(payload := bytes))))
    else
      Outcome(out.0, Success(None))
  }

  /** A request whose payload does not decode leaves the service state as
      it was and reports `FromPayloadError`: the body is not run. */
  lemma MalformedRequestSkipsBody<S>(f: Callback<S>, service: S, request: Message)
    requires f.takesArg && Decode(f.impl.argKind, request.payload).Failure?
    ensures Invoke(f, service, request)
      == Outcome(service, Failure(FromPayloadError(Decode(f.impl.argKind, request.payload).error)))
  {
  }

  /** A well-formed request runs the body once; an answering method
      responds with exactly the encoding of what the body returned, a
      fire-and-forget method responds with nothing. */
  lemma WellFormedRequestRunsBody<S>(f: Callback<S>, service: S, request: Message)
    requires f.takesArg ==> Decode(f.impl.argKind, request.payload).Success?
    ensures var arg := if f.takesArg then Decode(f.impl.argKind, request.payload).value else Unit;
      var out := f.impl.body(service, arg);
      var o := Invoke(f, service, request);
      && o.service == out.0
      && (f.answers ==>
            o.result.Success? && o.result.value.Some?
            && IsResponseTo(o.result.value.value, request)
            && o.result.value.value.payload == Encode(out.1).value)
      && (!f.answers ==> o.result == Success(None))
  {
  }

  /** One registered method: its id and its callback. */
  datatype Method<!S> = Method(id: MethodId, f: Callback<S>)

  /** `MethodsBuilder`: an append-only list of methods. It does not look at
      the ids; keeping them distinct is the methods macro's job. */
  class MethodsBuilder<S> {
    var methods: seq<Method<S>>

    constructor ()
      ensures methods == []
    {
      methods := [];
    }

    /** `add_method`: appends exactly one entry at the end. */
    method AddMethod(id: MethodId, f: Callback<S>)
      modifies this
      ensures methods == old(methods) + [Method(id, f)]
    {
      methods := methods + [Method(id, f)];
    }
  }

  /** The builder does not reject a repeated id: whatever it holds, adding
      two methods under the same id keeps both, after the earlier entries. */
  method DuplicateIdsAccepted<S>(b: MethodsBuilder<S>, id: MethodId, f: Callback<S>, g: Callback<S>)
    modifies b
    ensures b.methods == old(b.methods) + [Method(id, f), Method(id, g)]
    ensures b.methods[|b.methods| - 2].id == b.methods[|b.methods| - 1].id == id
  {
    b.AddMethod(id, f);
    b.AddMethod(id, g);
  }
}
