# mojaisolator plugin protocol, modelled in Dafny

This project models the plugin-protocol layer of mojaisolator, a Docker
libnetwork plugin. It has three parts:

- **isolhttps** (`IsolHttps`, properties in `IsolHttpsProperties`). This is the
  HTTP dispatcher. `main` builds a gorilla/mux router. It always registers
  `POST /Plugin.Activate` and `POST /NetworkDriver.GetCapabilities`. It adds
  the seven network-driver routes only when a network driver is given, and
  the five IPAM routes only when an IPAM driver is given.
  - Every other request goes to `notFound`.
  - The handshake announces `["NetworkDriver"]`, `["IpamDriver"]`, both in
    that order, or neither.
  - Every handler except `handshake`, `getCapabilities` and
    `getDefaultAddressSpaces` first decodes the body. On failure it answers
    400 with its own message.
  - The handshake encodes the capability list, falling back to a 500
    "encode error" text if encoding fails.
  - The other handlers call their capability. A call to a nil capability
    panics, and net/http drops the connection with nothing written.
  - Otherwise the handler answers in one of four ways: the result object
    with status 200; an empty object `{}`; status 500 with `{"Err": ...}`;
    or, when the result does not marshal, a 500 with the text "Could not
    JSON encode response".
  - The router is the class `Dispatcher`. Its route list is built by the
    same conditional, in-place registrations as `main`. The handlers are
    methods that write to an `Http.ResponseWriter` object, one status and
    one body chunk at a time. Each method is proved against the function
    `Handle`, and the router's `ServeHTTP` against `Serve`.
- **mojaipam** (`MojaIpam`, properties in `MojaIpamProperties`). This is an
  IPAM-only handler over the plugin SDK. It has a fixed manifest, six fixed
  `/IpamDriver.<Method>` paths and six closures that forward to an `Ipam`.
  - The handler is a class whose path table `initMux` fills in place.
  - The SDK's response writing is recorded as a log of events: the body was
    rejected, a value was encoded with an error string, or the handler
    panicked. Each closure is a method proved against the function
    `HandleOp`.
- **mojaplugin** (`MojaPlugin`). This is a stub `Ipam` whose six methods
  return constants. Its `main` gives `NewHandler` the struct's zero-valued
  `Ipam` field (nil), not the stub.

Supporting modules:

- `Wrappers`: `Option`, `Result`, `Outcome`.
- `GoJson`: JSON values, including the only kind `json.Marshal` refuses.
- `Http`: net/http's response writer, `http.Error`, `http.NotFound`, and a
  panic dropping the connection.
- `GoFmt`: `fmt.Sprintf` with a format string and no operands, following
  fmt's `doPrintf`.

Behaviour kept as written:

- `GetCapabilities` is routed even without a network driver. A call to it
  then panics on the nil interface, and net/http drops the connection.
- `discoverNew` and `discoverDelete` exist but are never routed.
- A driver's error text is passed to `Sprintf` as a format string. A text
  containing `%` is therefore changed on its way to the client.
- mojaipam's ReleaseAddress has no `return` after its error envelope. It
  encodes the empty map as well.
- mojaplugin's handler is built around a nil `Ipam`.

gorilla/mux keeps its routes as an ordered list and dispatches to the first
match. The model keeps the same list (`Dispatcher.routes`) rather than a
map. No two protocol paths coincide (`PathOfInjective`), so for these routes
the list and a map from (method, path) to handler agree
(`RouteTableSpec`).

## Model

| member | source | states |
|---|---|---|
| GoFmt.PlainPrefixVerbatim | vendor/src/github.com/mojaisolator/plugin/isolhttps.go:267-272 | Text without `%` at the front of a format is copied unchanged, and the rest is formatted on its own |
| GoFmt.Directive | vendor/src/github.com/mojaisolator/plugin/isolhttps.go:270 | One directive after a `%` always prints something, and scanning resumes on a suffix of the text after the `%`, a strict one when that text is not empty |
| GoFmt.Sprintf | vendor/src/github.com/mojaisolator/plugin/isolhttps.go:270 | A format without `%` is printed as it is, and a non-empty format prints something |
| GoFmt.PercentDirective | vendor/src/github.com/mojaisolator/plugin/isolhttps.go:270 | `%%` prints a single `%` and scanning resumes right after it |
| GoFmt.EscapedVerbatim | vendor/src/github.com/mojaisolator/plugin/isolhttps.go:270 | Doubling every `%` in a message makes `Sprintf` give back exactly the message (the escaping a caller would need) |
| GoFmt.SpaceFlaggedVerb | vendor/src/github.com/mojaisolator/plugin/isolhttps.go:270 | A verb letter after the space flag finds no operand: it prints `%!c(MISSING)`, and scanning resumes after the letter |
| GoFmt.MangledDirective | vendor/src/github.com/mojaisolator/plugin/isolhttps.go:270 | `"% c"` followed by plain text prints `%!c(MISSING)` followed by that text |
| GoFmt.PercentInTextIsMangled | vendor/src/github.com/mojaisolator/plugin/isolhttps.go:267-272 | An error text such as "disk 100% full" reaches the client as "disk 100%!f(MISSING)ull", which differs from the text |
| Http.Error | vendor/src/github.com/mojaisolator/plugin/isolhttps.go:263-265 | http.Error fixes the status (if none was fixed yet), then writes the message and a newline |
| Http.NotFound | vendor/src/github.com/mojaisolator/plugin/isolhttps.go:259-261 | http.NotFound is http.Error with "404 page not found" and 404 |
| Http.ResponseWriter.WriteHeader | vendor/src/github.com/mojaisolator/plugin/isolhttps.go:268 | Only the first status written counts |
| Http.ResponseWriter.Write | vendor/src/github.com/mojaisolator/plugin/isolhttps.go:282 | A body write appends one chunk, and fixes status 200 when no status was written |
| Http.ResponseWriter.Abort | vendor/src/github.com/mojaisolator/plugin/isolhttps.go:104 | A panic in a handler leaves the status and body untouched and marks the response dropped |
| IsolHttps.Implements | vendor/src/github.com/mojaisolator/plugin/isolhttps.go:88-95 | "NetworkDriver" is announced iff a driver is present, and "IpamDriver" iff an IPAM driver is present; nothing else is announced, and with both present the order is NetworkDriver, IpamDriver |
| IsolHttps.RouteTable | vendor/src/github.com/mojaisolator/plugin/isolhttps.go:45-69 | main registers 2 routes, plus 7 with a network driver and 5 with an IPAM driver, and every route is a POST at its handler's protocol path |
| IsolHttps.Lookup | vendor/src/github.com/mojaisolator/plugin/isolhttps.go:40-41 | The router picks no handler iff no route has the request's method and path; otherwise it picks the handler of the first route that has them |
| IsolHttps.Answer | vendor/src/github.com/mojaisolator/plugin/isolhttps.go:103-255 | A capability's success is never sent as an error envelope or a handshake; the operations without a result answer success with `{}`; only GetCapabilities, CreateEndpoint, EndpointOperInfo and Join return a driver object that can fail to marshal |
| IsolHttps.Handle | vendor/src/github.com/mojaisolator/plugin/isolhttps.go:88-255 | A handler calls its capability iff it is not the handshake, its body decoded (or it reads none) and the capability is present |
| IsolHttps.Serve | vendor/src/github.com/mojaisolator/plugin/isolhttps.go:40-71 | A capability is called only for a POST request; everything else reaches notFound or a handler that calls nothing |
| IsolHttps.SendError | vendor/src/github.com/mojaisolator/plugin/isolhttps.go:263-265 | The response becomes http.Error's: the status, then the message and a newline |
| IsolHttps.Decode | vendor/src/github.com/mojaisolator/plugin/isolhttps.go:74-80 | Reports success iff the body decoded. On failure it answers 400 with "Unable to decode JSON payload: " and the error; on success the response is untouched |
| IsolHttps.ErrorResponse | vendor/src/github.com/mojaisolator/plugin/isolhttps.go:267-272 | Status 500, then the `{"Err": Sprintf(fmt)}` object |
| IsolHttps.EncodeOrSendError | vendor/src/github.com/mojaisolator/plugin/isolhttps.go:275-278 | The encoded value if it marshals; otherwise http.Error with the fallback text and 500 |
| IsolHttps.ObjectResponse | vendor/src/github.com/mojaisolator/plugin/isolhttps.go:274-279 | As EncodeOrSendError, with the fallback "Could not JSON encode response" |
| IsolHttps.EmptyResponse | vendor/src/github.com/mojaisolator/plugin/isolhttps.go:281-283 | Writes the empty object |
| IsolHttps.ObjectOrErrorResponse | vendor/src/github.com/mojaisolator/plugin/isolhttps.go:285-291 | On an error, the error envelope and nothing else; otherwise the object response |
| IsolHttps.EmptyOrErrorResponse | vendor/src/github.com/mojaisolator/plugin/isolhttps.go:293-299 | On an error, the error envelope and nothing else; otherwise the empty object |
| IsolHttps.CorePaths | vendor/src/github.com/mojaisolator/plugin/isolhttps.go:45-51 | The handshake route is `POST /Plugin.Activate`, and GetCapabilities sits at handleMethod's path for NetworkDriver |
| IsolHttps.NetworkPaths | vendor/src/github.com/mojaisolator/plugin/isolhttps.go:53-61 | Each network handler's route is handleMethod's path for NetworkDriver and its method name (EndpointOperInfo, Join and Leave included) |
| IsolHttps.IpamPaths | vendor/src/github.com/mojaisolator/plugin/isolhttps.go:63-69 | Each IPAM handler's route is handleMethod's path for IpamDriver and its method name |
| IsolHttps.Dispatcher.constructor | vendor/src/github.com/mojaisolator/plugin/isolhttps.go:39-69 | After main's registrations the route list is exactly the route table for the capabilities present |
| IsolHttps.Dispatcher.RegisterCore | vendor/src/github.com/mojaisolator/plugin/isolhttps.go:45-51 | Appends the handshake and GetCapabilities routes, in that order |
| IsolHttps.Dispatcher.RegisterNetwork | vendor/src/github.com/mojaisolator/plugin/isolhttps.go:53-61 | Appends the seven network routes in main's order |
| IsolHttps.Dispatcher.RegisterIpam | vendor/src/github.com/mojaisolator/plugin/isolhttps.go:63-69 | Appends the five IPAM routes in main's order |
| IsolHttps.Dispatcher.Register | vendor/src/github.com/mojaisolator/plugin/isolhttps.go:45 | `router.Methods(m).Path(p).HandlerFunc(h)` appends one route and changes nothing else |
| IsolHttps.Dispatcher.HandleMethod | vendor/src/github.com/mojaisolator/plugin/isolhttps.go:47-49 | Appends a POST route at "/receiver.method" |
| IsolHttps.Dispatcher.Handshake | vendor/src/github.com/mojaisolator/plugin/isolhttps.go:88-101 | Builds the capability list step by step and encodes it, calling no capability; the effect equals `Handle` for the handshake |
| IsolHttps.Dispatcher.GetCapabilities | vendor/src/github.com/mojaisolator/plugin/isolhttps.go:103-106 | Calls the driver and answers object-or-error; with a nil driver the call panics. The effect equals `Handle` |
| IsolHttps.Dispatcher.CreateNetwork | vendor/src/github.com/mojaisolator/plugin/isolhttps.go:108-116 | Decode failure gives 400 "Unable to decode JSON payload: ..."; otherwise empty-or-error. The effect equals `Handle` |
| IsolHttps.Dispatcher.DeleteNetwork | vendor/src/github.com/mojaisolator/plugin/isolhttps.go:118-125 | Decode failure gives 400 "Unable to decode JSON payload: ..."; otherwise empty-or-error. The effect equals `Handle` |
| IsolHttps.Dispatcher.CreateEndpoint | vendor/src/github.com/mojaisolator/plugin/isolhttps.go:127-135 | Decode failure gives 400 with the lower-case "unable to decode JSON payload: ..."; otherwise object-or-error. The effect equals `Handle` |
| IsolHttps.Dispatcher.DeleteEndpoint | vendor/src/github.com/mojaisolator/plugin/isolhttps.go:137-144 | Decode failure gives 400 "Could not decode JSON encode payload" without the error; otherwise empty-or-error. The effect equals `Handle` |
| IsolHttps.Dispatcher.InfoEndpoint | vendor/src/github.com/mojaisolator/plugin/isolhttps.go:146-154 | Decode failure gives 400 with the fixed text; otherwise object-or-error from EndpointInfo. The effect equals `Handle` |
| IsolHttps.Dispatcher.JoinEndpoint | vendor/src/github.com/mojaisolator/plugin/isolhttps.go:156-164 | Decode failure gives 400 with the fixed text; otherwise object-or-error. The effect equals `Handle` |
| IsolHttps.Dispatcher.LeaveEndpoint | vendor/src/github.com/mojaisolator/plugin/isolhttps.go:166-173 | Decode failure gives 400 with the fixed text; otherwise empty-or-error. The effect equals `Handle` |
| IsolHttps.Dispatcher.DiscoverNew | vendor/src/github.com/mojaisolator/plugin/isolhttps.go:175-182 | Decode failure gives 400 with the fixed text; otherwise empty-or-error. The effect equals `Handle` |
| IsolHttps.Dispatcher.DiscoverDelete | vendor/src/github.com/mojaisolator/plugin/isolhttps.go:184-191 | Decode failure gives 400 with the fixed text; otherwise empty-or-error. The effect equals `Handle` |
| IsolHttps.Dispatcher.GetDefaultAddressSpaces | vendor/src/github.com/mojaisolator/plugin/isolhttps.go:195-202 | Answers the (local, global) pair as the address-spaces response, or the error envelope. The effect equals `Handle` |
| IsolHttps.Dispatcher.RequestPool | vendor/src/github.com/mojaisolator/plugin/isolhttps.go:204-220 | Decodes through `decode`, passes the five request fields to the driver, and answers with the pool ID, the pool's text form and the data, or the error envelope. The effect equals `Handle` |
| IsolHttps.Dispatcher.ReleasePool | vendor/src/github.com/mojaisolator/plugin/isolhttps.go:222-229 | Decodes through `decode`, releases the pool by ID, and answers empty-or-error. The effect equals `Handle` |
| IsolHttps.Dispatcher.RequestAddress | vendor/src/github.com/mojaisolator/plugin/isolhttps.go:231-246 | Decodes through `decode` and passes the parsed preferred address; answers with the address's text form and the data, or the error envelope. The effect equals `Handle` |
| IsolHttps.Dispatcher.ReleaseAddress | vendor/src/github.com/mojaisolator/plugin/isolhttps.go:248-255 | Decodes through `decode`, releases the parsed address, and answers empty-or-error. The effect equals `Handle` |
| IsolHttps.Dispatcher.Dispatch | vendor/src/github.com/mojaisolator/plugin/isolhttps.go:45-69 | Running the handler a route names has the effect `Handle` gives for it |
| IsolHttps.Dispatcher.Match | vendor/src/github.com/mojaisolator/plugin/isolhttps.go:40-41 | Returns the index of the first registered route with the request's method and path (no earlier route has them), or the number of routes when none does; the handler found is `Lookup`'s |
| IsolHttps.Dispatcher.ServeHTTP | vendor/src/github.com/mojaisolator/plugin/isolhttps.go:40-71 | Serving a request on the router main builds has the effect `Serve` gives: the matched handler, or the 404 page |
| IsolHttpsProperties.MethodPathParts | vendor/src/github.com/mojaisolator/plugin/isolhttps.go:48 | The path "/receiver.method" has the receiver's first letter at index 1 and ends with the method name |
| IsolHttpsProperties.PathRoundTrip | vendor/src/github.com/mojaisolator/plugin/isolhttps.go:45-69 | Every handler's path reads back, via `HandlerAtPath`, as that handler |
| IsolHttpsProperties.PathOfInjective | vendor/src/github.com/mojaisolator/plugin/isolhttps.go:45-69 | No two handlers share a path |
| IsolHttpsProperties.LookupBinding | vendor/src/github.com/mojaisolator/plugin/isolhttps.go:40-48 | In any list of protocol routes, the first-match lookup finds h iff the request is a POST to h's path and h's route is in the list |
| IsolHttpsProperties.BindsMembership | vendor/src/github.com/mojaisolator/plugin/isolhttps.go:47-49 | A handler's route is in a block of registrations iff the handler is in the block |
| IsolHttpsProperties.RouteTableBindings | vendor/src/github.com/mojaisolator/plugin/isolhttps.go:45-69 | The table holds h's route iff h is routed for the capabilities present (`Routed`), and every entry is a protocol route |
| IsolHttpsProperties.RouteTableSpec | vendor/src/github.com/mojaisolator/plugin/isolhttps.go:45-69 | The router sends a request to h iff it is a POST to h's path and h is routed for the capabilities present |
| IsolHttpsProperties.RoutedRequestHandled | vendor/src/github.com/mojaisolator/plugin/isolhttps.go:45-69 | A routed request runs its handler on its body |
| IsolHttpsProperties.UnroutedRequestNotFound | vendor/src/github.com/mojaisolator/plugin/isolhttps.go:259-261 | Any other request gets 404 "404 page not found\n", and no capability is called |
| IsolHttpsProperties.NonPostNotFound | vendor/src/github.com/mojaisolator/plugin/isolhttps.go:45-48 | Any method other than POST gets 404, even on a protocol path |
| IsolHttpsProperties.DiscoveryNotFound | vendor/src/github.com/mojaisolator/plugin/isolhttps.go:175-191 | The DiscoverNew and DiscoverDelete paths get 404 whatever the capabilities |
| IsolHttpsProperties.NoDriverNoNetworkRoutes | vendor/src/github.com/mojaisolator/plugin/isolhttps.go:53-61 | Without a driver, every network path except GetCapabilities gets 404 |
| IsolHttpsProperties.ActivateAnswersCapabilities | vendor/src/github.com/mojaisolator/plugin/isolhttps.go:88-101 | `POST /Plugin.Activate` is always routed and answers 200 with the capability list |
| IsolHttpsProperties.DecodeFailureShortCircuits | vendor/src/github.com/mojaisolator/plugin/isolhttps.go:74-80 | A body that does not decode gives 400 with the handler's text and a newline, one write only, and no capability call |
| IsolHttpsProperties.MissingCapabilityPanics | vendor/src/github.com/mojaisolator/plugin/isolhttps.go:103-106 | A decoded request to a missing capability drops the connection with nothing written |
| IsolHttpsProperties.HandleAborts | vendor/src/github.com/mojaisolator/plugin/isolhttps.go:103-106 | A handler drops the connection iff its body decoded and the capability it calls is missing |
| IsolHttpsProperties.AbortOnlyWithoutDriverCapabilities | vendor/src/github.com/mojaisolator/plugin/isolhttps.go:51 | A request drops the connection iff it is a POST to GetCapabilities and there is no driver |
| IsolHttpsProperties.DriverErrorEnvelope | vendor/src/github.com/mojaisolator/plugin/isolhttps.go:267-272 | A driver error gives exactly status 500 and `{"Err": Sprintf(msg)}`, with nothing else written |
| IsolHttpsProperties.PlainDriverErrorVerbatim | vendor/src/github.com/mojaisolator/plugin/isolhttps.go:285-291 | A driver error without `%` reaches the client as `{"Err": msg}` unchanged |
| IsolHttpsProperties.DriverSuccessEnvelope | vendor/src/github.com/mojaisolator/plugin/isolhttps.go:274-279 | A driver result gives 200 and the result if it marshals; otherwise 500 and "Could not JSON encode response\n" |
| IsolHttpsProperties.NoPayloadAnswersEmpty | vendor/src/github.com/mojaisolator/plugin/isolhttps.go:293-299 | The operations without a result answer a success with exactly 200 and `{}` |
| IsolHttpsProperties.RequestPoolForwards | vendor/src/github.com/mojaisolator/plugin/isolhttps.go:204-220 | RequestPool passes the decoded fields to the driver and answers 200 with its pool ID, the pool's text form and its data |
| IsolHttpsProperties.RequestAddressForwards | vendor/src/github.com/mojaisolator/plugin/isolhttps.go:231-246 | RequestAddress passes the parsed preferred address and answers 200 with the address's text form and the data |
| IsolHttpsProperties.AddressSpacesForwarded | vendor/src/github.com/mojaisolator/plugin/isolhttps.go:195-202 | GetDefaultAddressSpaces answers 200 with local and global in their own fields |
| IsolHttpsProperties.HandleWellFormed | vendor/src/github.com/mojaisolator/plugin/isolhttps.go:263-299 | Every handler either drops the connection before writing, or fixes one status and writes one chunk: 500 goes with the envelope or a text, 200 with an encoded value, and 400 or 404 with a text. A handler that called its capability never drops |
| IsolHttpsProperties.ServeWellFormed | vendor/src/github.com/mojaisolator/plugin/isolhttps.go:40-71 | Every request gets one such well-formed answer |
| IsolHttpsProperties.InvokedOnlyAfterDecode | vendor/src/github.com/mojaisolator/plugin/isolhttps.go:74-80 | A capability is called iff the request is routed to a handler other than the handshake, its body decoded and its capability is present |
| MojaIpam.NewErrorResponse | vendor/src/github.com/mojaisolator/mojaipam/mojaipam.go:87-89 | The response carries the message as its Err |
| MojaIpam.EncodeResponse | vendor/src/github.com/mojaisolator/mojaipam/mojaipam.go:109 | One encode event with the value and the error string |
| MojaIpam.DecodeRequest | vendor/src/github.com/mojaisolator/mojaipam/mojaipam.go:124-128 | Returns the decoded record. A rejection is recorded, and nothing is recorded on success |
| MojaIpam.EncodeError | vendor/src/github.com/mojaisolator/mojaipam/mojaipam.go:107-110 | Encodes NewErrorResponse(msg) with msg as the error string |
| MojaIpam.Mount | vendor/src/github.com/mojaisolator/mojaipam/mojaipam.go:104-177 | initMux's registrations add exactly the six path constants to a path table and keep every other entry |
| MojaIpam.Routes | vendor/src/github.com/mojaisolator/mojaipam/mojaipam.go:98-102 | The paths initMux registers are exactly the six path constants, each bound to its own operation |
| MojaIpam.HandleOp | vendor/src/github.com/mojaisolator/mojaipam/mojaipam.go:104-177 | A closure's events: the rejection alone iff the body does not decode, a panic alone iff it decoded and the Ipam is nil, and otherwise the envelope of the Ipam's answer; one event per request, except a failed ReleaseAddress, which adds the empty map |
| MojaIpam.Handler.constructor | vendor/src/github.com/mojaisolator/mojaipam/mojaipam.go:98-102 | NewHandler keeps the Ipam, uses the manifest, and ends with exactly the six routes |
| MojaIpam.Handler.HandleFunc | vendor/src/github.com/mojaisolator/mojaipam/mojaipam.go:105 | Registers one path and changes no other |
| MojaIpam.Handler.InitMux | vendor/src/github.com/mojaisolator/mojaipam/mojaipam.go:104-177 | Registers the six path constants, in order, each to its handler |
| MojaIpam.Handler.GetCapabilities | vendor/src/github.com/mojaisolator/mojaipam/mojaipam.go:105-113 | The events equal `HandleOp`: a panic on a nil Ipam, else the error envelope or the result |
| MojaIpam.Handler.GetDefaultAddressSpaces | vendor/src/github.com/mojaisolator/mojaipam/mojaipam.go:114-122 | The events equal `HandleOp` for GetDefaultAddressSpaces |
| MojaIpam.Handler.RequestPool | vendor/src/github.com/mojaisolator/mojaipam/mojaipam.go:123-136 | The events equal `HandleOp`: the rejection alone, or the Ipam's answer |
| MojaIpam.Handler.ReleasePool | vendor/src/github.com/mojaisolator/mojaipam/mojaipam.go:137-150 | The events equal `HandleOp`: the rejection, the error envelope, or the empty map |
| MojaIpam.Handler.RequestAddress | vendor/src/github.com/mojaisolator/mojaipam/mojaipam.go:151-164 | The events equal `HandleOp` for RequestAddress |
| MojaIpam.Handler.ReleaseAddress | vendor/src/github.com/mojaisolator/mojaipam/mojaipam.go:165-177 | The events equal `HandleOp`, including the empty map after an error envelope |
| MojaIpam.Handler.Serve | vendor/src/github.com/mojaisolator/mojaipam/mojaipam.go:104-177 | A request is routed by initMux's table iff its path is one of the six constants. A routed request produces its handler's events; any other request produces none here |
| MojaIpamProperties.ManifestDeclaresIpamOnly | vendor/src/github.com/mojaisolator/mojaipam/mojaipam.go:10 | The manifest is the handshake document declaring exactly one capability, IpamDriver |
| MojaIpamProperties.PathConstants | vendor/src/github.com/mojaisolator/mojaipam/mojaipam.go:12-17 | Each path constant is "/IpamDriver." followed by its method's name |
| MojaIpamProperties.RoutesByConstant | vendor/src/github.com/mojaisolator/mojaipam/mojaipam.go:104-177 | Each path constant is routed to its own handler |
| MojaIpamProperties.EveryOpRouted | vendor/src/github.com/mojaisolator/mojaipam/mojaipam.go:98-102 | Each of the six methods is routed at "/IpamDriver.Method" |
| MojaIpamProperties.OnlyOpPathsRouted | vendor/src/github.com/mojaisolator/mojaipam/mojaipam.go:98-102 | Every routed path is "/IpamDriver." followed by the name of the handler it routes to |
| MojaIpamProperties.DecodeRejectionStops | vendor/src/github.com/mojaisolator/mojaipam/mojaipam.go:123-128 | A rejected body ends the request with the rejection alone, whatever the Ipam |
| MojaIpamProperties.NilIpamPanics | vendor/src/github.com/mojaisolator/mojaipam/mojaipam.go:106 | A decoded request to a nil Ipam panics, with nothing encoded |
| MojaIpamProperties.ErrorSingleEnvelope | vendor/src/github.com/mojaisolator/mojaipam/mojaipam.go:106-111 | Every handler except ReleaseAddress answers an Ipam error with exactly one `ErrorResponse{msg}` carrying msg as the error string |
| MojaIpamProperties.ReleaseAddressErrorWritesTwice | vendor/src/github.com/mojaisolator/mojaipam/mojaipam.go:171-176 | ReleaseAddress answers an Ipam error with the envelope and then the empty map |
| MojaIpamProperties.SuccessEncodesResult | vendor/src/github.com/mojaisolator/mojaipam/mojaipam.go:112 | On success the Ipam's response is encoded unchanged with an empty error string, and it is the empty map for the two release operations |
| MojaIpamProperties.EnvelopeCarriesMessage | vendor/src/github.com/mojaisolator/mojaipam/mojaipam.go:107-112 | Every error envelope is encoded with its own message as the error string, and every other value with an empty one |
| MojaPlugin.GetCapabilities | vendor/src/github.com/mojaisolator/mojaplugin/mojaplugin.go:33-37 | Succeeds, and does not require a MAC address |
| MojaPlugin.GetDefaultAddressSpaces | vendor/src/github.com/mojaisolator/mojaplugin/mojaplugin.go:39-43 | Succeeds with the local space "mojaLocal" and the global space "mojaGlobal" |
| MojaPlugin.RequestPool | vendor/src/github.com/mojaisolator/mojaplugin/mojaplugin.go:45-49 | Succeeds whatever the request, with pool ID "poolId", pool "pool" and data mapping the network label prefix "com.docker.network" to "10.2.3.0" |
| MojaPlugin.ReleasePool | vendor/src/github.com/mojaisolator/mojaplugin/mojaplugin.go:51-54 | Always succeeds |
| MojaPlugin.RequestAddress | vendor/src/github.com/mojaisolator/mojaplugin/mojaplugin.go:56-60 | Succeeds whatever the request, with address "10.2.3.x" and data mapping the driver label prefix "com.docker.network.driver" to "10.2.3.5" |
| MojaPlugin.ReleaseAddress | vendor/src/github.com/mojaisolator/mojaplugin/mojaplugin.go:62-65 | Always succeeds |
| MojaPlugin.Stub | vendor/src/github.com/mojaisolator/mojaplugin/mojaplugin.go:11-13 | The stub as an Ipam: each of its six operations is the stub method of the same name |
| MojaPlugin.StubNeverFails | vendor/src/github.com/mojaisolator/mojaplugin/mojaplugin.go:33-65 | Every decodable request to the stub is answered with the stub's constant for that operation (the literals above), never an error |
| MojaPlugin.StubScenario | vendor/src/github.com/mojaisolator/mojaplugin/mojaplugin.go:33-65 | Behind the mojaipam handler, every decodable request gets exactly one constant answer with an empty error string, and no error envelope |
| MojaPlugin.Start | vendor/src/github.com/mojaisolator/mojaplugin/mojaplugin.go:21-22 | main builds the handler around the nil zero value of the struct's Ipam field, with the manifest and the six routes |
| MojaPlugin.StubNeverWiredIn | vendor/src/github.com/mojaisolator/mojaplugin/mojaplugin.go:11-22 | With that handler, every decodable request panics where the stub would have answered |

## Left out

- Sockets and the server loop (`http.Serve` on the listener, `handler.ServeTCP`): I/O only. A request is handed to `ServeHTTP` or `Serve` directly.
- gorilla/mux internals beyond first-match dispatch on method and path: path cleaning, redirects and a separate 405 answer. A wrong method gets the NotFoundHandler, as for an unknown path.
- Response headers other than the status (Content-Type, X-Content-Type-Options), and write errors from the transport.
- encoding/json internals. What a body decodes to (or the decoder's error text) comes from the `Decoder` parameter. Whether a value marshals is decided by `GoJson.Marshalable`; only a network driver's own result can hold a value json refuses. The bytes of an encoded document are not modelled: a body chunk holds the value.
- `net.ParseIP` and `(*net.IPNet).String`: kept uninterpreted. An address is known by the text it was parsed from, and a pool by its text form.
- The network-driver API records: passed through as JSON values without their fields.
- The plugin SDK (`sdk.NewHandler`, `HandleFunc`, `DecodeRequest`, `EncodeResponse`, its mux and `ServeTCP`) is not part of this model. Its effect is an event log. The HTTP status EncodeResponse picks from the error string, and the SDK's answer for an unregistered path, are not modelled. Routes that `sdk.NewHandler(manifest)` registers itself (the activation route that answers with the manifest) are not modelled either; `Routes()` holds only initMux's six paths, so `Handler.Serve` treats `/Plugin.Activate` as unrouted and the manifest is never served.
- libnetwork's `netlabel` package is not part of this model. Its two label keys are written out as constants.
- `vendor/src/github.com/docker/libnetwork/drivers_linux.go`: a constant list of foreign driver constructors, with no logic of its own.
- mojaplugin's own router and `notFound`: built in its `main` but never served, so they have no effect.
- Nil slices and nil pointers are modelled as empty values. With neither capability, Go encodes the handshake as `{"Implements":null}`, while the model has an empty list. An `Ipam` that returns a nil result with a nil error makes mojaipam encode `null`; the model's results cannot be nil.
- Go strings are byte sequences, while the model's `string` is a sequence of Unicode characters. An error text holding invalid UTF-8 cannot be expressed: Go's Sprintf copies such bytes unchanged, and encoding/json then writes U+FFFD in their place.
- Driver state, concurrency between requests, and Go's typed-nil interface values: a capability handle is present or absent.
