# SMIP in Dafny

SMIP is a thin Rust layer over the vsomeip SOME/IP stack. On the server side,
a `#[service]` struct with a `#[methods_impl]` block becomes a set of
byte-level message handlers: each handler decodes the request payload,
calls the user's method and encodes the answer. On the client side, `send`
issues one request and then waits for the response with the same
(service, instance, method). This project models the core of that layer
and proves properties of the model:

- **The SOME/IP header code tables** (`SomeIpTypes`). These are the Return
  Code and Message Type bytes of the AUTOSAR SOME/IP Protocol Specification
  (PRS_SOMEIP), section 4.1.2, and the default header.
- **The payload codec** (`Payload`). Values are written as fixed-width
  little-endian integers and read back with trailing bytes allowed, as
  bincode's fixint options do. Both directions return a `Result`.
- **The message record** (`Messages`). It holds the header fields and the
  payload bytes, with the `request` and `response` factories.
- **The registration vocabulary** (`SmipTypes`). This covers the
  append-only `MethodsBuilder` class and the callback a generated handler
  runs: decode the argument, call the body, encode the result.
- **The `methods_impl` macro** (`MethodsMacro`), as a validator and table
  builder over an abstract syntax of impl blocks. It checks the block and
  each annotated method, extracts the `id = <literal>` attribute, rejects a
  duplicate id, edits the attributes and derives one dispatch entry per
  method. The derived `register_methods` fills a `MethodsBuilder`.
- **The `service` macro** (`ServiceMacro`), which defaults absent versions
  to 0.
- **The vsomeip configuration builders** of both compat crates
  (`VsomeIpCompat` for `crates/vsomeip_compat`, `VsomeIpCompatLegacy` for
  the root crate). Each is a record with by-value setters and a `build`
  that produces a JSON tree (`Json`). The tree is compared as a value, as
  the crates' tests compare parsed `serde_json::Value`s.
- **The vsomeip application** (`Transport`), as a class that records what
  is done to it: the handlers registered, the services offered, the
  messages sent, and whether it was started or stopped.
- **The server runtime** (`SmipRuntime`). This covers `Runtime::new`,
  `service` and `run`, the state-handler and message-handler bodies, and
  `handle_response`.
- **The client** (`SmipClient`). This covers the response-only observer and
  `send`'s correlation loop over a FIFO of received replies.

Behaviour of the code worth knowing, each proved as stated:

- A method without a return type still answers a request whose argument
  fails to decode: the answer carries `MalformedMessage`
  (`SmipRuntime.FireAndForgetRepliesOnlyWhenMalformed`). This holds under
  the error mapping described for `SmipTypes.Invoke` under "Left out".
- `MethodsBuilder::add_method` accepts a repeated id
  (`SmipTypes.DuplicateIdsAccepted`). Ids are kept distinct only by the
  `methods_impl` macro (`MethodsMacro.ExpandAccepted`).
- The address and netmask of a `RuntimeConfig` never reach the vsomeip
  configuration. The server always takes both from the host's default
  interface (`SmipRuntime.RuntimeAddrNotForwarded`).
- The root compat crate writes an `unreliable` key into every service
  entry. The crate's own tests expect none
  (`VsomeIpCompatLegacy.SampleServiceHasUnreliable`).
- The server registers each service's handlers under the runtime's single
  instance id, keyed (service id, instance id, method id)
  (`SmipRuntime.HandlerKeys`).
- A `service` entry in the configuration always has versions 0, whatever
  the service definition says. The offer made by the state handler does
  carry the definition's versions (`SmipRuntime.Runtime.Service`,
  `SmipRuntime.RunCreator`).

## Model

| member | source | states |
|---|---|---|
| SomeIpTypes.ReturnCodeFromByte | someip_types/src/lib.rs:57-80 | bytes 0x00-0x0f give exactly the named codes, 0x10-0x5e exactly `Reserved(b)`, 0x5f-0xff exactly `Unknown(b)`; the result is always well formed |
| SomeIpTypes.ReturnCodeByteRoundTrip | someip_types/src/lib.rs:57-104 | every byte survives byte → code → byte |
| SomeIpTypes.ReturnCodeRoundTrip | someip_types/src/lib.rs:57-104 | a code survives code → byte → code if and only if it is well formed |
| SomeIpTypes.ReservedLowByteDoesNotRoundTrip | someip_types/src/lib.rs:76-77 | `Reserved(0x01)` comes back as `NotOk` |
| SomeIpTypes.MessageTypeFromByte | someip_types/src/lib.rs:124-140 | the ten named bytes give exactly the named types; any other byte `b` gives `Unknown(b)` |
| SomeIpTypes.MessageTypeToByte | someip_types/src/lib.rs:142-158 | a named type writes one of the ten named bytes |
| SomeIpTypes.MessageTypeByteRoundTrip | someip_types/src/lib.rs:124-158 | every byte survives byte → type → byte |
| SomeIpTypes.MessageTypeRoundTrip | someip_types/src/lib.rs:124-158 | a type survives type → byte → type if and only if it is well formed (an `Unknown` byte not claimed by a named type) |
| SomeIpTypes.TpFlag | someip_types/src/lib.rs:109-120 | each TP type's byte is its base type's byte with flag 0x20 set, and the base byte has it clear |
| SomeIpTypes.DefaultHeaderIsZero | someip_types/src/lib.rs:18-36 | the default header has every id zero, type `Request` and return code `Ok`, both written as 0x00 |
| Payload.Encode | smip_core/src/types.rs:45-49 | encoding succeeds and takes exactly the kind's fixed width |
| Payload.Decode | smip_core/src/types.rs:33-42 | a buffer shorter than the width is exactly the `UnexpectedEof` error; a result has the requested kind |
| Payload.DecodeEncode | smip_core/src/types.rs:33-49 | decoding the encoding of `v` followed by any bytes gives back `v` |
| Payload.RoundTrip | smip_core/src/types.rs:33-49 | decoding the exact encoding of `v` gives back `v` |
| Payload.EncodeDecode | smip_core/src/types.rs:33-49 | whatever decodes was the encoding of the decoded value, followed by ignored bytes |
| Payload.TrailingBytesIgnored | smip_core/src/types.rs:35-38 | appending bytes to a long-enough buffer does not change the decode |
| Payload.LittleEndianRoundTrip | smip_core/src/types.rs:35-37 | fixed-width little-endian writing and reading are inverse for values below the width's bound |
| Payload.LittleEndianCanonical | smip_core/src/types.rs:35-37 | reading any buffer and writing the value back at the same width gives the buffer again |
| Messages.NewRequest | crates/vsomeip-rs/src/runtime.rs:105-126 | an empty, reliable-as-asked message of type Request with return code Ok |
| Messages.NewResponse | crates/vsomeip-rs/src/runtime.rs:127-148 | an empty message answering the request: same triple, same client and session, type Response, return code Ok |
| Messages.ResponseKeepsTriple | crates/vsomeip-rs/src/runtime.rs:127-148 | a response never answers a request for a different triple |
| SmipTypes.Invoke | smip_proc_macros/src/methods.rs:158-198 | a generated callback never reports `NoResponse`; any response it builds answers the request with `Ok` |
| SmipTypes.Reply | smip_proc_macros/src/methods.rs:175-192 | the state after the body is kept; a built response answers the request with `Ok` |
| SmipTypes.MalformedRequestSkipsBody | smip_proc_macros/src/methods.rs:158-161 | an undecodable argument leaves the service state untouched and reports `FromPayloadError` with the decode error |
| SmipTypes.WellFormedRequestRunsBody | smip_proc_macros/src/methods.rs:163-192 | a decodable request runs the body once; an answering method returns exactly the encoded result in a response; a fire-and-forget one returns `None` |
| SmipTypes.MethodsBuilder.AddMethod | smip_core/src/types.rs:19-21 | exactly one entry is appended at the end, earlier entries unchanged |
| SmipTypes.DuplicateIdsAccepted | smip_core/src/types.rs:19-21 | whatever the builder holds, adding two methods under the same id keeps both, in order, after the earlier entries |
| MethodsMacro.CheckValidImpl | smip_proc_macros/src/methods.rs:56-73 | accepts exactly the blocks that are not trait impls and have no generics and no where clause |
| MethodsMacro.CheckValidMethod | smip_proc_macros/src/methods.rs:75-102 | accepts exactly the methods without generics or where clause, with a receiver first and 1 or 2 inputs |
| MethodsMacro.FirstSmipAttr | smip_proc_macros/src/methods.rs:104-115 | the index found holds `smip_method` and none before it does; `None` exactly when no attribute does |
| MethodsMacro.ExtractMethodAttr | smip_proc_macros/src/methods.rs:104-115 | the loop returns the first `smip_method` index |
| MethodsMacro.FirstSmipAttrUnique | smip_proc_macros/src/methods.rs:104-115 | an index holding `smip_method` with none before it is the one found |
| MethodsMacro.ExtractMethodId | smip_proc_macros/src/methods.rs:116-147 | an id is extracted exactly from `id = <integer literal below 0x10000>`, and it is that literal |
| MethodsMacro.Consumed | smip_proc_macros/src/methods.rs:20-21 | the `smip_method` attribute is removed, the others keep their order, `#[allow(unused)]` is appended, nothing else changes |
| MethodsMacro.IdToName | smip_proc_macros/src/methods.rs:12-31 | the id map's keys are exactly the ids recorded so far |
| MethodsMacro.DeriveServiceMethods | smip_proc_macros/src/methods.rs:149-216 | one entry per recorded method, in order; it reads an argument exactly when the method has more than the receiver, and answers exactly when it declares a return type |
| MethodsMacro.ExpandSpec | smip_proc_macros/src/methods.rs:7-8 | an invalid impl block is rejected with the impl check's error before any item is looked at |
| MethodsMacro.ExpandMethodsImpl | smip_proc_macros/src/methods.rs:7-54 | the item loop with its id map computes exactly the expansion `ExpandSpec` defines |
| MethodsMacro.ExpandItem | smip_proc_macros/src/methods.rs:15-40 | the loop body on one item computes exactly the step `StepItem` defines, given the id map of the methods recorded so far |
| MethodsMacro.ExpandItemsEdits | smip_proc_macros/src/methods.rs:14-41 | a successful pass saw only methods; annotated ones are edited and the others are left as they were |
| MethodsMacro.ExpandItemsRecords | smip_proc_macros/src/methods.rs:17-31 | a successful pass records one valid, edited method per annotated method, in order, with the id of its attribute |
| MethodsMacro.ExpandItemsDistinct | smip_proc_macros/src/methods.rs:25-31 | a successful pass never records an id twice |
| MethodsMacro.ExpandAccepted | smip_proc_macros/src/methods.rs:7-54 | an accepted block holds only methods; its entries correspond one to one, in order, to the annotated methods with their ids, names, argument and answer flags; ids are pairwise distinct |
| MethodsMacro.ExpandItemsAccepts | smip_proc_macros/src/methods.rs:14-41 | a pass over items that are all methods, whose annotated methods pass their check, name well-formed ids not yet recorded and no id twice, ends without an error; unannotated methods are skipped |
| MethodsMacro.ValidBlockAccepted | smip_proc_macros/src/methods.rs:7-54 | a block that passes the impl check and meets those rules is accepted |
| MethodsMacro.AcceptedIffMeetsRules | smip_proc_macros/src/methods.rs:7-54 | a block is accepted if and only if it passes the impl check, holds only methods, each annotated method passes its check and names a well-formed id, and no two name the same id |
| MethodsMacro.DuplicateIdRejected | smip_proc_macros/src/methods.rs:25-27 | two annotated methods with the same id make the expansion fail |
| MethodsMacro.NonMethodRejected | smip_proc_macros/src/methods.rs:37-39 | an item that is not a method makes the expansion fail |
| MethodsMacro.InvalidMethodRejected | smip_proc_macros/src/methods.rs:17-23 | an annotated method that fails the method check or whose id is malformed makes the expansion fail |
| MethodsMacro.ExpandItemsDuplicate | smip_proc_macros/src/methods.rs:25-31 | a duplicate-id error names a method that took the id earlier, and a later annotated method carries it |
| MethodsMacro.DuplicateNamesEarlierMethod | smip_proc_macros/src/methods.rs:25-31 | the duplicate-id error of a block names an earlier annotated method with that id, and a later one carries it too |
| MethodsMacro.RegisterMethods | smip_proc_macros/src/methods.rs:194-214 | the derived `register_methods` appends one method per entry, in order, to the builder |
| MethodsMacro.RegisteredMethods | smip_proc_macros/src/methods.rs:149-216 | registering an accepted block gives one method per annotated method, in order, under its attribute's id, with distinct ids |
| ServiceMacro.ExpandServiceImpl | crates/smip_proc_macros/src/service.rs:14-37 | the struct is re-emitted unchanged, the impl is for that struct, and the id is the argument |
| ServiceMacro.AbsentVersionsDefaultToZero | crates/smip_proc_macros/src/service.rs:18-19 | an absent major or minor version becomes 0 |
| ServiceMacro.GivenVersionsPassThrough | crates/smip_proc_macros/src/service.rs:17-34 | given versions are used unchanged |
| ServiceMacro.ExplicitZeroIsDefault | crates/smip_proc_macros/src/service.rs:18-19 | writing versions 0 expands the same as leaving them out |
| Json.DecimalRoundTrip | crates/vsomeip_compat/src/lib.rs:105-112 | the decimal text of an id reads back as the id |
| Json.Decimal | crates/vsomeip_compat/src/lib.rs:105-112 | the decimal text of an id is non-empty, all digits, and has no leading zero |
| Json.DecimalInjective | crates/vsomeip_compat/src/lib.rs:105-112 | different ids are written as different decimal strings |
| Json.IpStringInjective | crates/vsomeip_compat/src/lib.rs:94-95 | different IPv4 addresses are written as different dotted strings |
| VsomeIpCompat.New | crates/vsomeip_compat/src/lib.rs:21-32 | app "smip_app" with id 0, no services, discovery off, unicast, no address or netmask, instance 0, no routing |
| VsomeIpCompat.DefaultServiceConfig | crates/vsomeip_compat/src/lib.rs:155-165 | id 0, TCP port 30509, versions 0 |
| VsomeIpCompat.ApplicationId | crates/vsomeip_compat/src/lib.rs:34-37 | sets the application name and id and nothing else |
| VsomeIpCompat.ServiceDiscovery | crates/vsomeip_compat/src/lib.rs:39-42 | sets the discovery flag and nothing else |
| VsomeIpCompat.Service | crates/vsomeip_compat/src/lib.rs:44-47 | appends the service at the end and changes nothing else |
| VsomeIpCompat.Addr | crates/vsomeip_compat/src/lib.rs:49-52 | sets the address and nothing else |
| VsomeIpCompat.Netmask | crates/vsomeip_compat/src/lib.rs:54-57 | sets the netmask and nothing else |
| VsomeIpCompat.InstanceIdOf | crates/vsomeip_compat/src/lib.rs:59-62 | sets the instance id and nothing else |
| VsomeIpCompat.BuildAddrMode | crates/vsomeip_compat/src/lib.rs:64-69 | "unicast" for unicast, "multicast" for multicast |
| VsomeIpCompat.AddrModeKeyIsFree | crates/vsomeip_compat/src/lib.rs:64-130 | the mode key differs from every other key of the document and between the two modes |
| VsomeIpCompat.SetAddr | crates/vsomeip_compat/src/lib.rs:70-84 | a configuration with address and netmask is returned unchanged; otherwise the interface fills in exactly the missing ones; there is no result exactly when both a value and the interface are missing |
| VsomeIpCompat.Build | crates/vsomeip_compat/src/lib.rs:85-92 | a document is built exactly when the address step succeeds |
| VsomeIpCompat.BuildTopLevel | crates/vsomeip_compat/src/lib.rs:93-130 | the document's keys are the fixed ones, the mode key, and "routing" exactly when routing is set; it holds the address, netmask, one application entry with the decimal id, the discovery flag and the routing name |
| VsomeIpCompat.BuildServices | crates/vsomeip_compat/src/lib.rs:109-122 | one entry per service, in order, with decimal service and instance ids, the TCP or UDP port as `reliable.port`, and the address under the mode key |
| VsomeIpCompat.BuildIgnoresInterfaceWhenAddressed | crates/vsomeip_compat/src/lib.rs:71-73 | with address and netmask given, the host's interface plays no part |
| VsomeIpCompat.SampleConfigDocument | crates/vsomeip_compat/src/lib.rs:191-306 | the crate's two sample configurations build exactly the trees their tests expect |
| VsomeIpCompatLegacy.New | vsomeip_compat/src/lib.rs:21-32 | address 127.0.0.1, netmask 255.255.255.0, no services, app "smip_app" with id 0, unicast, discovery off, instance 0, no routing |
| VsomeIpCompatLegacy.ApplicationId | vsomeip_compat/src/lib.rs:34-37 | sets the application name and id and nothing else |
| VsomeIpCompatLegacy.ServiceDiscovery | vsomeip_compat/src/lib.rs:39-42 | sets the discovery flag and nothing else |
| VsomeIpCompatLegacy.Service | vsomeip_compat/src/lib.rs:44-47 | appends the service at the end and changes nothing else |
| VsomeIpCompatLegacy.Addr | vsomeip_compat/src/lib.rs:49-52 | sets the address and nothing else |
| VsomeIpCompatLegacy.Netmask | vsomeip_compat/src/lib.rs:54-57 | sets the netmask and nothing else |
| VsomeIpCompatLegacy.InstanceIdOf | vsomeip_compat/src/lib.rs:59-62 | sets the instance id and nothing else |
| VsomeIpCompatLegacy.BuildTopLevel | vsomeip_compat/src/lib.rs:70-118 | the address under the mode key, the netmask, one application entry with the decimal id, the discovery flag, and "routing" exactly when routing is set |
| VsomeIpCompatLegacy.BuildServices | vsomeip_compat/src/lib.rs:89-106 | one entry per service, in order, whose port appears both as `unreliable` and as `reliable.port`, TCP or UDP alike |
| VsomeIpCompatLegacy.SampleServiceHasUnreliable | vsomeip_compat/src/lib.rs:89-208 | the tests' sample configuration gets an `unreliable` key, which their expected tree lacks |
| Transport.Application.RegisterMessageHandler | crates/vsomeip-rs/src/application.rs:48-60 | appends one handler under its (service, instance, method) key; nothing else changes |
| Transport.Application.RegisterStateHandler | crates/vsomeip-rs/src/application.rs:61-71 | appends one state handler; nothing else changes |
| Transport.Application.OfferService | crates/vsomeip-rs/src/application.rs:33-35 | appends one offer; nothing else changes |
| Transport.Application.Send | crates/vsomeip-rs/src/application.rs:45-47 | appends the message to what was sent; nothing else changes |
| Transport.Application.Start | crates/vsomeip-rs/src/application.rs:27-29 | the application is running; nothing else changes |
| Transport.Application.Stop | crates/vsomeip-rs/src/application.rs:30-32 | the application is no longer running; nothing else changes |
| Transport.Application.constructor | crates/vsomeip-rs/src/runtime.rs:60-76 | a named application holding its configuration document, with no handlers, offers or messages, not running |
| SmipRuntime.NewRuntimeConfig | crates/smip_core/src/runtime.rs:21-29 | name, id and instance as given, no address and no netmask |
| SmipRuntime.ConfigAddr | crates/smip_core/src/runtime.rs:30-33 | sets the address and nothing else |
| SmipRuntime.ConfigNetmask | crates/smip_core/src/runtime.rs:34-37 | sets the netmask and nothing else |
| SmipRuntime.HandleResponse | crates/smip_core/src/runtime.rs:60-87 | `Ok(r)` sends exactly `r`; a decode error sends one empty response to the request with `MalformedMessage`, an encode error one with `NotOk`; `NoResponse` is excluded |
| SmipRuntime.FireAndForgetRepliesOnlyWhenMalformed | crates/smip_core/src/runtime.rs:60-87 | a method without a return type answers if and only if its argument fails to decode, and then with `MalformedMessage` |
| SmipRuntime.AnsweringMethodAlwaysReplies | crates/smip_core/src/runtime.rs:60-87 | a method with a return type always answers the request, with `Ok` exactly when its argument decodes |
| SmipRuntime.RunMessageHandler | crates/smip_core/src/runtime.rs:120-125 | the service state becomes the callback's, and the application sends what `handle_response` decides |
| SmipRuntime.RunStateHandler | crates/smip_core/src/runtime.rs:108-112 | the service is offered with the definition's versions exactly when the state is `Registered` |
| SmipRuntime.RunCreator | crates/smip_core/src/runtime.rs:105-127 | one state handler and then one message handler per method, in order, on a fresh shared cell holding the service |
| SmipRuntime.HandlerKeys | crates/smip_core/src/runtime.rs:105-146 | registrations are keyed (service id, instance id, method id), creator by creator and method by method |
| SmipRuntime.InitialVsomeIpConfig | crates/smip_core/src/runtime.rs:47-52 | the name and id of the application, the instance id and routing through the application's own name; everything else as `VsomeIpConfig::new` |
| SmipRuntime.Runtime.constructor | crates/smip_core/src/runtime.rs:47-59 | keeps the configuration, starts from `InitialVsomeIpConfig`, no creators |
| SmipRuntime.Runtime.Service | crates/smip_core/src/runtime.rs:88-132 | appends one TCP service entry with versions 0 and one creator holding the registered methods |
| SmipRuntime.Runtime.Run | crates/smip_core/src/runtime.rs:133-146 | fails exactly when the application does not initialise; otherwise the application holds the built document, the creators' handlers in order under the configured instance, and is started |
| SmipRuntime.RuntimeAddrNotForwarded | crates/smip_core/src/runtime.rs:11-59 | setting the address and netmask of the runtime configuration does not change the vsomeip configuration, which has neither |
| SmipClient.Forward | smip_core/src/client.rs:31-42 | a message is forwarded exactly when it is a Response, with its service, instance, method and payload |
| SmipClient.Client.OnMessage | smip_core/src/client.rs:31-42 | a Response is appended to the queue; other messages leave it unchanged |
| SmipClient.FirstMatch | smip_core/src/client.rs:77-82 | the position found is a reply for the triple with none before it; `None` means no reply for the triple |
| SmipClient.FirstMatchUnique | smip_core/src/client.rs:77-82 | a reply for the triple with none before it is the one `send` takes |
| SmipClient.RequestFor | smip_core/src/client.rs:63-71 | a reliable Request addressed to the given service, instance and method |
| SmipClient.RequestCarriesArgument | smip_core/src/client.rs:69-71 | the request's payload decodes to the argument |
| SmipClient.ResponseToRequestIsMatched | smip_core/src/client.rs:31-84 | any response to the request passes the observer and matches the triple `send` waits for |
| SmipClient.DecodeReply | smip_core/src/client.rs:80 | the decoded reply, or the decode error as `FromPayloadError` |
| SmipClient.Client.Send | smip_core/src/client.rs:53-85 | sends the request once; returns the decode of the first queued reply for the triple and leaves the queue after it, or fails with `NoResponseReceived` and an empty queue when there is none |
| SmipClient.Connect | smip_core/src/client.rs:17-52 | fails exactly when the application does not initialise; otherwise one wildcard observer is registered and the application is started with the built document |
| SmipClient.Close | smip_core/src/client.rs:88-93 | the application is stopped |

## Left out

- Threads: the client's application thread and its join on drop. The model starts the application before `Connect` returns and stops it in `Close`.
- `SmipRuntime.Runtime.Run` returns as soon as the application is started, with `running` true. In the code `run` ends in `start()`, which blocks until the application stops, so `Ok(())` comes back only after shutdown.
- Locking: the `Arc<Mutex>` around service state is modelled as a shared `ServiceCell` object, not as a lock.
- `SmipClient.Client.Send` reads a finite queue instead of a blocking channel. An exhausted queue stands for a disconnected channel. In the code the observer keeps the sender alive, so `send` would keep waiting rather than fail.
- The vsomeip library itself is foreign code. The model does not decide which registered handler runs for an incoming message, does not assign request ids when sending, and does not do service discovery.
- The `netdev` default-interface lookup is a parameter of the model (`iface`). `None` stands for the panic when there is no default interface or it has no IPv4 address. The netmask is taken as the library reports it.
- `set_vsomeip_config` (temporary file, environment variable) is not modelled; the application records the document it would have read. The case where the variable was already set is not modelled.
- The JSON text, its pretty-printed echo and all other `println!` logging are not modelled. Documents are compared as trees.
- IPv6 addresses are not modelled; only IPv4 is.
- `RuntimeConfig::addr`/`netmask` resolve a socket address and panic on failure. The model takes an already resolved address.
- `SmipRuntime.Runtime.Run` requires the configuration document to build. A failed default-interface lookup panics in the code, so it is a precondition here, not a result.
- Only the kinds unit, bool, u8, u16, u32, u64 and i32 are in the codec. Strings, structs, enums, floats and containers are not modelled, and encoding never fails for the modelled kinds.
- All services of one `SmipRuntime.Runtime` share a single state type `S`. In the code each service can have its own type.
- `ServiceMethods::register_methods` is modelled only as the macro-derived implementation (`MethodsMacro.RegisterMethods`). Hand-written implementations are not modelled.
- Macro token streams, spans and error-message texts are not modelled. Argument parsing by darling (`ServiceArgs::from_list`) is not modelled, and neither are the `parse_macro_input` failures of the macro entry points.
- The code has no response timeout, no availability gating and no UnknownMethod reply, so the model has none either.
- Not part of this model: `crates/smip_al` (traits, and an implementation that does not compile), the older `smip_core/src/runtime.rs` (which only logs errors), and `smip_proc_macros/src/lib.rs` (ends in `todo!()`). The examples are not modelled either.
- `MethodsMacro.DeriveServiceMethods` states the entry shape only (id, method name, argument and answer flags); the generated token stream is represented by `MethodsMacro.RegisterMethods` and `SmipTypes.Invoke`.
- Message fields: protocol version and message length are not modelled. The request id is split into client and session. `Messages.NewResponse` also copies the interface version and reliability of the request, which the library's documentation does not promise. `Messages.NewRequest` sets service, instance, method, client and session to 0; the client sets the first three, and the transport assigns client and session when sending.
- Panics inside user method bodies are not modelled.
- SmipTypes.Invoke: the conversion behind the `?` in the generated callback (smip_proc_macros/src/methods.rs:160, 176) is not written out: smip_core/src/error.rs declares both payload variants of `SmipError` over `bincode::Error` without `#[from]`, so no single conversion picks between them, and the `RequestCallback` of smip_core/src/types.rs:9 has a different signature. The model assumes what the runtime's `handle_response` expects: a decode error becomes `FromPayloadError`, an encode error becomes `ToPayloadError`, and the callback has the shape `(&mut S, &Message) -> Result<Option<Message>, SmipError>`.
