/** The isolhttps plugin dispatcher: a route table built from which of the two
    capability handles (network driver, IPAM driver) are present, the
    Plugin.Activate handshake, and one handler per protocol method that
    decodes the request, calls the capability and answers with an object,
    an empty object or an {"Err": ...} envelope. */
module IsolHttps {
  import opened Wrappers
  import opened GoJson
  import GoFmt
  import Http

  const NetworkReceiver := "NetworkDriver"
  /** ipamapi.PluginEndpointType */
  const IpamReceiver := "IpamDriver"

  // ---------------------------------------------------------------------------
  // Capabilities

  /** A *net.IPNet, known to the model only by the text its String method gives. */
  datatype IPNet = IPNet(str: string)

  /** The net.IP that net.ParseIP makes of a text (nil when the text is not an
      address), known to the model only by that text. */
  datatype IP = ParsedIP(source: string)

  function ParseIP(s: string): IP {
    ParsedIP(s)
  }

  /** The Driver interface. Requests and results are network-driver API
      records the dispatcher passes through without looking inside. */
  datatype NetworkDriver = NetworkDriver(
    getCapabilities: () -> Result<Json, string>,
    createNetwork: Json -> Outcome<string>,
    deleteNetwork: Json -> Outcome<string>,
    createEndpoint: Json -> Result<Json, string>,
    deleteEndpoint: Json -> Outcome<string>,
    endpointInfo: Json -> Result<Json, string>,
    joinEndpoint: Json -> Result<Json, string>,
    leaveEndpoint: Json -> Outcome<string>,
    discoverNew: Json -> Outcome<string>,
    discoverDelete: Json -> Outcome<string>)

  /** The methods of ipamapi.Ipam that the dispatcher calls. */
  datatype IpamDriver = IpamDriver(
    getDefaultAddressSpaces: () -> Result<(string, string), string>,
    requestPool: (string, string, string, map<string, string>, bool) -> Result<(string, IPNet, map<string, string>), string>,
    releasePool: string -> Outcome<string>,
    requestAddress: (string, IP, map<string, string>) -> Result<(IPNet, map<string, string>), string>,
    releaseAddress: (string, IP) -> Outcome<string>)

  // ---------------------------------------------------------------------------
  // Wire records

  /** The IPAM request records of the remote IPAM API. */
  datatype RequestPoolRequest = RequestPoolRequest(
    addressSpace: string, pool: string, subPool: string, options: map<string, string>, v6: bool)
  datatype ReleasePoolRequest = ReleasePoolRequest(poolID: string)
  datatype RequestAddressRequest = RequestAddressRequest(poolID: string, address: string, options: map<string, string>)
  datatype ReleaseAddressRequest = ReleaseAddressRequest(poolID: string, address: string)

  /** The handler functions the router can dispatch to. */
  datatype Handler =
    | Handshake
    | GetCapabilities | CreateNetwork | DeleteNetwork | CreateEndpoint | DeleteEndpoint
    | InfoEndpoint | JoinEndpoint | LeaveEndpoint | DiscoverNew | DiscoverDelete
    | GetDefaultAddressSpaces | RequestPool | ReleasePool | RequestAddress | ReleaseAddress

  /** What encoding/json makes of a request body for each handler: the record
      it decodes into, or the decoder's error text. */
  datatype Decoder = Decoder(
    network: (Handler, string) -> Result<Json, string>,
    requestPool: string -> Result<RequestPoolRequest, string>,
    releasePool: string -> Result<ReleasePoolRequest, string>,
    requestAddress: string -> Result<RequestAddressRequest, string>,
    releaseAddress: string -> Result<ReleaseAddressRequest, string>)

  /** The values a handler hands to json.Encoder. */
  datatype Payload =
    | HandshakeResp(implements: seq<string>)
    | DriverObject(value: Json)
    | AddressSpacesResponse(local: string, global: string)
    | RequestPoolResponse(poolID: string, pool: string, data: map<string, string>)
    | RequestAddressResponse(address: string, data: map<string, string>)
      /** map[string]string{} */
    | EmptyObject
      /** map[string]string{"Err": err} */
    | ErrObject(err: string)

  /** Only what a network driver returned can hold something json.Marshal refuses. */
  predicate Marshals(p: Payload) {
    p.DriverObject? ==> Marshalable(p.value)
  }

  type Reply = Http.Exchange<Payload>
  type Writer = Http.ResponseWriter<Payload>

  datatype Request = Request(verb: string, path: string, body: string)
  datatype Route = Route(verb: string, path: string)

  /** A handler's effect: the response, and whether it called a capability. */
  datatype Trace = Trace(reply: Reply, invoked: bool)

  // ---------------------------------------------------------------------------
  // Route table and handshake

  /** The path handleMethod registers: "/<receiver>.<method>". */
  function MethodPath(receiver: string, name: string): string {
    "/" + receiver + "." + name
  }

  /** The receiver named in each handler's path. */
  function Receiver(h: Handler): string {
    if h.Handshake? then "Plugin"
    else if IsIpam(h) then IpamReceiver
    else NetworkReceiver
  }

  /** The method named in each handler's path. */
  function MethodName(h: Handler): string {
    match h
    case Handshake => "Activate"
    case GetCapabilities => "GetCapabilities"
    case CreateNetwork => "CreateNetwork"
    case DeleteNetwork => "DeleteNetwork"
    case CreateEndpoint => "CreateEndpoint"
    case DeleteEndpoint => "DeleteEndpoint"
    case InfoEndpoint => "EndpointOperInfo"
    case JoinEndpoint => "Join"
    case LeaveEndpoint => "Leave"
    case DiscoverNew => "DiscoverNew"
    case DiscoverDelete => "DiscoverDelete"
    case GetDefaultAddressSpaces => "GetDefaultAddressSpaces"
    case RequestPool => "RequestPool"
    case ReleasePool => "ReleasePool"
    case RequestAddress => "RequestAddress"
    case ReleaseAddress => "ReleaseAddress"
  }

  function PathOf(h: Handler): string {
    MethodPath(Receiver(h), MethodName(h))
  }

  /** A registered route: requests with this method and path go to handler. */
  datatype Entry = Entry(route: Route, handler: Handler)

  /** The POST route for a handler at its protocol path. */
  function Bind(h: Handler): Entry {
    Entry(Route("POST", PathOf(h)), h)
  }

  /** The routes main registers, in registration order, given which
      capabilities are present. */
  function RouteTable(hasDriver: bool, hasIpam: bool): (t: seq<Entry>)
    ensures |t| == 2 + (if hasDriver then 7 else 0) + (if hasIpam then 5 else 0)
    ensures forall k :: 0 <= k < |t| ==> t[k] == Bind(t[k].handler)
  {
    CoreBindings()
    + (if hasDriver then NetworkBindings() else [])
    + (if hasIpam then IpamBindings() else [])
  }

  /** The POST routes for handlers, in the order given. */
  function Binds(hs: seq<Handler>): (t: seq<Entry>)
    ensures |t| == |hs|
    ensures forall k :: 0 <= k < |hs| ==> t[k] == Bind(hs[k])
  {
    seq(|hs|, k requires 0 <= k < |hs| => Bind(hs[k]))
  }

  /** Registering one more handler extends the table by its binding. */
  lemma BindsSnoc(hs: seq<Handler>, h: Handler)
    ensures Binds(hs + [h]) == Binds(hs) + [Bind(h)]
  {
    assert forall k :: 0 <= k < |hs| ==> (hs + [h])[k] == hs[k];
  }

  /** A route list that has the bindings of done after base, extended by the
      binding of h. */
  lemma Extended(base: seq<Entry>, done: seq<Handler>, h: Handler)
    ensures base + Binds(done + [h]) == (base + Binds(done)) + [Bind(h)]
  {
    BindsSnoc(done, h);
  }

  function CoreHandlers(): seq<Handler> {
    [Handshake, GetCapabilities]
  }

  function NetworkHandlers(): seq<Handler> {
    [CreateNetwork, DeleteNetwork, CreateEndpoint, DeleteEndpoint, InfoEndpoint, JoinEndpoint, LeaveEndpoint]
  }

  function IpamHandlers(): seq<Handler> {
    [GetDefaultAddressSpaces, RequestPool, ReleasePool, RequestAddress, ReleaseAddress]
  }

  function CoreBindings(): seq<Entry> {
    Binds(CoreHandlers())
  }

  function NetworkBindings(): seq<Entry> {
    Binds(NetworkHandlers())
  }

  function IpamBindings(): seq<Entry> {
    Binds(IpamHandlers())
  }

  /** The router's choice for a request: the first route, in registration
      order, whose method and path match; None means its NotFoundHandler. */
  function Lookup(table: seq<Entry>, r: Request): (found: Option<Handler>)
    ensures found.None? <==> forall k :: 0 <= k < |table| ==> table[k].route != Route(r.verb, r.path)
    ensures found.Some? ==> exists k :: 0 <= k < |table| && table[k] == Entry(Route(r.verb, r.path), found.value)
                                       && forall j :: 0 <= j < k ==> table[j].route != Route(r.verb, r.path)
  {
    if |table| == 0 then None
    else if table[0].route == Route(r.verb, r.path) then Some(table[0].handler)
    else Lookup(table[1..], r)
  }

  /** The capability list the handshake announces. */
  function Implements(hasDriver: bool, hasIpam: bool): (caps: seq<string>)
    ensures NetworkReceiver in caps <==> hasDriver
    ensures IpamReceiver in caps <==> hasIpam
    ensures |caps| == (if hasDriver then 1 else 0) + (if hasIpam then 1 else 0)
    ensures hasDriver && hasIpam ==> caps == [NetworkReceiver, IpamReceiver]
  {
    (if hasDriver then ["NetworkDriver"] else []) + (if hasIpam then ["IpamDriver"] else [])
  }

  // ---------------------------------------------------------------------------
  // What each handler does

  predicate IsNetwork(h: Handler) {
    h.GetCapabilities? || h.CreateNetwork? || h.DeleteNetwork? || h.CreateEndpoint? || h.DeleteEndpoint?
    || h.InfoEndpoint? || h.JoinEndpoint? || h.LeaveEndpoint? || h.DiscoverNew? || h.DiscoverDelete?
  }

  predicate IsIpam(h: Handler) {
    h.GetDefaultAddressSpaces? || h.RequestPool? || h.ReleasePool? || h.RequestAddress? || h.ReleaseAddress?
  }

  /** Whether the capability the handler calls is there (calling a nil
      interface panics). */
  predicate Present(d: Option<NetworkDriver>, i: Option<IpamDriver>, h: Handler) {
    (IsNetwork(h) ==> d.Some?) && (IsIpam(h) ==> i.Some?)
  }

  /** Operations whose only result is success or an error. */
  predicate NoPayload(h: Handler) {
    h.CreateNetwork? || h.DeleteNetwork? || h.DeleteEndpoint? || h.LeaveEndpoint?
    || h.DiscoverNew? || h.DiscoverDelete? || h.ReleasePool? || h.ReleaseAddress?
  }

  function ErrorOf<T>(r: Result<T, string>): Option<string> {
    if r.Failure? then Some(r.error) else None
  }

  /** The decoder's error for the handler's request body, if it decodes one. */
  function DecodeError(json: Decoder, h: Handler, body: string): Option<string> {
    match h
    case Handshake => None
    case GetCapabilities => None
    case GetDefaultAddressSpaces => None
    case RequestPool => ErrorOf(json.requestPool(body))
    case ReleasePool => ErrorOf(json.releasePool(body))
    case RequestAddress => ErrorOf(json.requestAddress(body))
    case ReleaseAddress => ErrorOf(json.releaseAddress(body))
    case _ => ErrorOf(json.network(h, body))
  }

  /** The text each handler sends with status 400 when decoding fails. */
  function DecodeFailureText(h: Handler, err: string): string {
    match h
    case CreateEndpoint => "unable to decode JSON payload: " + err
    case DeleteEndpoint => "Could not decode JSON encode payload"
    case InfoEndpoint => "Could not decode JSON encode payload"
    case JoinEndpoint => "Could not decode JSON encode payload"
    case LeaveEndpoint => "Could not decode JSON encode payload"
    case DiscoverNew => "Could not decode JSON encode payload"
    case DiscoverDelete => "Could not decode JSON encode payload"
    case _ => "Unable to decode JSON payload: " + err
  }

  function Object(r: Result<Json, string>): Result<Payload, string> {
    match r
    case Success(v) => Success(DriverObject(v))
    case Failure(e) => Failure(e)
  }

  function Empty(o: Outcome<string>): Result<Payload, string> {
    match o
    case Pass => Success(EmptyObject)
    case Fail(e) => Failure(e)
  }

  /** What the capability answers a decoded request with: the payload the
      handler sends on success, or the driver's error text. */
  function Answer(d: Option<NetworkDriver>, i: Option<IpamDriver>, h: Handler, body: string, json: Decoder): (r: Result<Payload, string>)
    requires !h.Handshake? && Present(d, i, h) && DecodeError(json, h, body).None?
    ensures r.Success? ==> !r.value.ErrObject? && !r.value.HandshakeResp?
    ensures r.Success? && NoPayload(h) ==> r.value == EmptyObject
    ensures r.Success? && !Marshals(r.value) ==> h.GetCapabilities? || h.CreateEndpoint? || h.InfoEndpoint? || h.JoinEndpoint?
  {
    match h
    case GetCapabilities => Object(d.value.getCapabilities())
    case CreateNetwork => Empty(d.value.createNetwork(json.network(h, body).value))
    case DeleteNetwork => Empty(d.value.deleteNetwork(json.network(h, body).value))
    case CreateEndpoint => Object(d.value.createEndpoint(json.network(h, body).value))
    case DeleteEndpoint => Empty(d.value.deleteEndpoint(json.network(h, body).value))
    case InfoEndpoint => Object(d.value.endpointInfo(json.network(h, body).value))
    case JoinEndpoint => Object(d.value.joinEndpoint(json.network(h, body).value))
    case LeaveEndpoint => Empty(d.value.leaveEndpoint(json.network(h, body).value))
    case DiscoverNew => Empty(d.value.discoverNew(json.network(h, body).value))
    case DiscoverDelete => Empty(d.value.discoverDelete(json.network(h, body).value))
    case GetDefaultAddressSpaces =>
      (match i.value.getDefaultAddressSpaces()
       case Success((local, global)) => Success(AddressSpacesResponse(local, global))
       case Failure(e) => Failure(e))
    case RequestPool =>
      var rq := json.requestPool(body).value;
      (match i.value.requestPool(rq.addressSpace, rq.pool, rq.subPool, rq.options, rq.v6)
       case Success((poolID, pool, data)) => Success(RequestPoolResponse(poolID, pool.str, data))
       case Failure(e) => Failure(e))
    case ReleasePool => Empty(i.value.releasePool(json.releasePool(body).value.poolID))
    case RequestAddress =>
      var rq := json.requestAddress(body).value;
      (match i.value.requestAddress(rq.poolID, ParseIP(rq.address), rq.options)
       case Success((address, data)) => Success(RequestAddressResponse(address.str, data))
       case Failure(e) => Failure(e))
    case ReleaseAddress =>
      var rq := json.releaseAddress(body).value;
      Empty(i.value.releaseAddress(rq.poolID, ParseIP(rq.address)))
  }

  // The response helpers, as changes to a response.

  function AfterErrorResponse(e: Reply, fmtString: string): Reply {
    e.WriteHeader(Http.StatusInternalServerError).Write(Http.Encoded(ErrObject(GoFmt.Sprintf(fmtString))))
  }

  function AfterEncodeOrSendError(e: Reply, p: Payload, fallback: string): Reply {
    if Marshals(p) then e.Write(Http.Encoded(p)) else e.Error(fallback, Http.StatusInternalServerError)
  }

  function AfterObjectResponse(e: Reply, p: Payload): Reply {
    AfterEncodeOrSendError(e, p, "Could not JSON encode response")
  }

  function AfterEmptyResponse(e: Reply): Reply {
    e.Write(Http.Encoded(EmptyObject))
  }

  function AfterObjectOrErrorResponse(e: Reply, r: Result<Payload, string>): Reply {
    match r
    case Failure(msg) => AfterErrorResponse(e, msg)
    case Success(p) => AfterObjectResponse(e, p)
  }

  function AfterEmptyOrErrorResponse(e: Reply, o: Outcome<string>): Reply {
    match o
    case Fail(msg) => AfterErrorResponse(e, msg)
    case Pass => AfterEmptyResponse(e)
  }

  /** The effect of one handler on a fresh response. */
  function Handle(d: Option<NetworkDriver>, i: Option<IpamDriver>, h: Handler, body: string, json: Decoder): (t: Trace)
    ensures t.invoked <==> !h.Handshake? && DecodeError(json, h, body).None? && Present(d, i, h)
  {
    var start := Http.Fresh<Payload>();
    if h.Handshake? then
      Trace(AfterEncodeOrSendError(start, HandshakeResp(Implements(d.Some?, i.Some?)), "encode error"), false)
    else
      match DecodeError(json, h, body)
      case Some(err) => Trace(start.Error(DecodeFailureText(h, err), Http.StatusBadRequest), false)
      case None =>
        if !Present(d, i, h) then Trace(start.Panic(), false)
        else Trace(AfterObjectOrErrorResponse(start, Answer(d, i, h, body, json)), true)
  }

  /** The effect of serving one request with the router main builds. */
  function Serve(d: Option<NetworkDriver>, i: Option<IpamDriver>, r: Request, json: Decoder): (t: Trace)
    ensures t.invoked ==> r.verb == "POST"
  {
    match Lookup(RouteTable(d.Some?, i.Some?), r)
    case None => Trace(Http.Fresh<Payload>().NotFound(), false)
    case Some(h) => Handle(d, i, h, r.body, json)
  }

  // ---------------------------------------------------------------------------
  // The helpers, as methods on the response writer

  method SendError(w: Writer, msg: string, code: int)
    modifies w
    ensures w.State() == old(w.State()).Error(msg, code)
  {
    Http.Error(w, msg, code);
  }

  /** decode: on a decoding error, answers 400 and reports it. */
  method Decode<T>(w: Writer, decoded: Result<T, string>) returns (ok: bool)
    modifies w
    ensures ok == decoded.Success?
    ensures w.State() == if ok then old(w.State())
                         else old(w.State()).Error("Unable to decode JSON payload: " + decoded.error, Http.StatusBadRequest)
  {
    ok := decoded.Success?;
    if !ok {
      SendError(w, "Unable to decode JSON payload: " + decoded.error, Http.StatusBadRequest);
    }
  }

  method ErrorResponse(w: Writer, fmtString: string)
    modifies w
    ensures w.State() == AfterErrorResponse(old(w.State()), fmtString)
  {
    w.WriteHeader(Http.StatusInternalServerError);
    w.Write(Http.Encoded(ErrObject(GoFmt.Sprintf(fmtString))));
  }

  /** json.NewEncoder(w).Encode(p), falling back to a 500 when marshalling fails. */
  method EncodeOrSendError(w: Writer, p: Payload, fallback: string)
    modifies w
    ensures w.State() == AfterEncodeOrSendError(old(w.State()), p, fallback)
  {
    if Marshals(p) {
      w.Write(Http.Encoded(p));
    } else {
      SendError(w, fallback, Http.StatusInternalServerError);
    }
  }

  method ObjectResponse(w: Writer, p: Payload)
    modifies w
    ensures w.State() == AfterObjectResponse(old(w.State()), p)
  {
    EncodeOrSendError(w, p, "Could not JSON encode response");
  }

  method EmptyResponse(w: Writer)
    modifies w
    ensures w.State() == AfterEmptyResponse(old(w.State()))
  {
    w.Write(Http.Encoded(EmptyObject));
  }

  method ObjectOrErrorResponse(w: Writer, r: Result<Payload, string>)
    modifies w
    ensures w.State() == AfterObjectOrErrorResponse(old(w.State()), r)
  {
    if r.Failure? {
      ErrorResponse(w, r.error);
      return;
    }
    ObjectResponse(w, r.value);
  }

  method EmptyOrErrorResponse(w: Writer, o: Outcome<string>)
    modifies w
    ensures w.State() == AfterEmptyOrErrorResponse(old(w.State()), o)
  {
    if o.Fail? {
      ErrorResponse(w, o.error);
      return;
    }
    EmptyResponse(w);
  }

  /** The routes main registers are the protocol paths of their handlers:
      the handshake and GetCapabilities, */
  lemma CorePaths()
    ensures Bind(Handshake) == Entry(Route("POST", "/Plugin.Activate"), Handshake)
    ensures Bind(GetCapabilities) == Entry(Route("POST", MethodPath(NetworkReceiver, "GetCapabilities")), GetCapabilities)
  {
    assert MethodPath("Plugin", "Activate") == "/Plugin.Activate";
  }

  /** the network-driver methods, */
  lemma NetworkPaths()
    ensures Bind(CreateNetwork) == Entry(Route("POST", MethodPath(NetworkReceiver, "CreateNetwork")), CreateNetwork)
    ensures Bind(DeleteNetwork) == Entry(Route("POST", MethodPath(NetworkReceiver, "DeleteNetwork")), DeleteNetwork)
    ensures Bind(CreateEndpoint) == Entry(Route("POST", MethodPath(NetworkReceiver, "CreateEndpoint")), CreateEndpoint)
    ensures Bind(DeleteEndpoint) == Entry(Route("POST", MethodPath(NetworkReceiver, "DeleteEndpoint")), DeleteEndpoint)
    ensures Bind(InfoEndpoint) == Entry(Route("POST", MethodPath(NetworkReceiver, "EndpointOperInfo")), InfoEndpoint)
    ensures Bind(JoinEndpoint) == Entry(Route("POST", MethodPath(NetworkReceiver, "Join")), JoinEndpoint)
    ensures Bind(LeaveEndpoint) == Entry(Route("POST", MethodPath(NetworkReceiver, "Leave")), LeaveEndpoint)
  {
  }

  /** and the IPAM methods. */
  lemma IpamPaths()
    ensures Bind(GetDefaultAddressSpaces) == Entry(Route("POST", MethodPath(IpamReceiver, "GetDefaultAddressSpaces")), GetDefaultAddressSpaces)
    ensures Bind(RequestPool) == Entry(Route("POST", MethodPath(IpamReceiver, "RequestPool")), RequestPool)
    ensures Bind(ReleasePool) == Entry(Route("POST", MethodPath(IpamReceiver, "ReleasePool")), ReleasePool)
    ensures Bind(RequestAddress) == Entry(Route("POST", MethodPath(IpamReceiver, "RequestAddress")), RequestAddress)
    ensures Bind(ReleaseAddress) == Entry(Route("POST", MethodPath(IpamReceiver, "ReleaseAddress")), ReleaseAddress)
  {
  }

  // ---------------------------------------------------------------------------
  // The dispatcher

  /** The isolhttps value (the two capability handles) together with the
      router main builds around it. */
  class Dispatcher {
    const d: Option<NetworkDriver>
    const i: Option<IpamDriver>
    var routes: seq<Entry>

    ghost predicate Valid()
      reads this
    {
      routes == RouteTable(d.Some?, i.Some?)
    }

    /** main, up to http.Serve: the handshake and GetCapabilities routes
        always, the network routes when a driver is given, the IPAM routes
        when an IPAM driver is given. */
    constructor (driver: Option<NetworkDriver>, ipamDriver: Option<IpamDriver>)
      ensures d == driver && i == ipamDriver
      ensures Valid()
    {
      d, i := driver, ipamDriver;
      routes := [];
      new;
      RegisterCore();
      assert routes == CoreBindings();
      if driver.Some? {
        RegisterNetwork();
      }
      assert routes == CoreBindings() + (if driver.Some? then NetworkBindings() else []);
      if ipamDriver.Some? {
        RegisterIpam();
      }
    }

    /** The routes main registers whatever the capabilities. */
    method RegisterCore()
      modifies this
      ensures routes == old(routes) + CoreBindings()
    {
      CorePaths();
      ghost var done: seq<Handler> := [];
      assert routes == old(routes) + Binds(done);
      Register("POST", "/Plugin.Activate", Handler.Handshake);
      Extended(old(routes), done, Handler.Handshake);
      done := done + [Handler.Handshake];
      assert routes == old(routes) + Binds(done);
      HandleMethod(NetworkReceiver, "GetCapabilities", Handler.GetCapabilities);
      Extended(old(routes), done, Handler.GetCapabilities);
      done := done + [Handler.GetCapabilities];
      assert routes == old(routes) + Binds(done);
      assert done == CoreHandlers();
    }

    /** The routes main registers when a network driver is given. */
    method RegisterNetwork()
      modifies this
      ensures routes == old(routes) + NetworkBindings()
    {
      NetworkPaths();
      ghost var done: seq<Handler> := [];
      assert routes == old(routes) + Binds(done);
      HandleMethod(NetworkReceiver, "CreateNetwork", Handler.CreateNetwork);
      Extended(old(routes), done, Handler.CreateNetwork);
      done := done + [Handler.CreateNetwork];
      assert routes == old(routes) + Binds(done);
      HandleMethod(NetworkReceiver, "DeleteNetwork", Handler.DeleteNetwork);
      Extended(old(routes), done, Handler.DeleteNetwork);
      done := done + [Handler.DeleteNetwork];
      assert routes == old(routes) + Binds(done);
      HandleMethod(NetworkReceiver, "CreateEndpoint", Handler.CreateEndpoint);
      Extended(old(routes), done, Handler.CreateEndpoint);
      done := done + [Handler.CreateEndpoint];
      assert routes == old(routes) + Binds(done);
      HandleMethod(NetworkReceiver, "DeleteEndpoint", Handler.DeleteEndpoint);
      Extended(old(routes), done, Handler.DeleteEndpoint);
      done := done + [Handler.DeleteEndpoint];
      assert routes == old(routes) + Binds(done);
      HandleMethod(NetworkReceiver, "EndpointOperInfo", Handler.InfoEndpoint);
      Extended(old(routes), done, Handler.InfoEndpoint);
      done := done + [Handler.InfoEndpoint];
      assert routes == old(routes) + Binds(done);
      HandleMethod(NetworkReceiver, "Join", Handler.JoinEndpoint);
      Extended(old(routes), done, Handler.JoinEndpoint);
      done := done + [Handler.JoinEndpoint];
      assert routes == old(routes) + Binds(done);
      HandleMethod(NetworkReceiver, "Leave", Handler.LeaveEndpoint);
      Extended(old(routes), done, Handler.LeaveEndpoint);
      done := done + [Handler.LeaveEndpoint];
      assert routes == old(routes) + Binds(done);
      assert done == NetworkHandlers();
    }

    /** The routes main registers when an IPAM driver is given. */
    method RegisterIpam()
      modifies this
      ensures routes == old(routes) + IpamBindings()
    {
      IpamPaths();
      ghost var done: seq<Handler> := [];
      assert routes == old(routes) + Binds(done);
      HandleMethod(IpamReceiver, "GetDefaultAddressSpaces", Handler.GetDefaultAddressSpaces);
      Extended(old(routes), done, Handler.GetDefaultAddressSpaces);
      done := done + [Handler.GetDefaultAddressSpaces];
      assert routes == old(routes) + Binds(done);
      HandleMethod(IpamReceiver, "RequestPool", Handler.RequestPool);
      Extended(old(routes), done, Handler.RequestPool);
      done := done + [Handler.RequestPool];
      assert routes == old(routes) + Binds(done);
      HandleMethod(IpamReceiver, "ReleasePool", Handler.ReleasePool);
      Extended(old(routes), done, Handler.ReleasePool);
      done := done + [Handler.ReleasePool];
      assert routes == old(routes) + Binds(done);
      HandleMethod(IpamReceiver, "RequestAddress", Handler.RequestAddress);
      Extended(old(routes), done, Handler.RequestAddress);
      done := done + [Handler.RequestAddress];
      assert routes == old(routes) + Binds(done);
      HandleMethod(IpamReceiver, "ReleaseAddress", Handler.ReleaseAddress);
      Extended(old(routes), done, Handler.ReleaseAddress);
      done := done + [Handler.ReleaseAddress];
      assert routes == old(routes) + Binds(done);
      assert done == IpamHandlers();
    }

    /** router.Methods(verb).Path(path).HandlerFunc(h): appends a route to
        the router's list. */
    method Register(verb: string, path: string, h: Handler)
      modifies this
      ensures routes == old(routes) + [Entry(Route(verb, path), h)]
    {
      routes := routes + [Entry(Route(verb, path), h)];
    }

    /** The handleMethod closure: a POST route for "/<receiver>.<method>". */
    method HandleMethod(receiver: string, name: string, h: Handler)
      modifies this
      ensures routes == old(routes) + [Entry(Route("POST", MethodPath(receiver, name)), h)]
    {
      Register("POST", "/" + receiver + "." + name, h);
    }

    method Handshake(w: Writer, body: string, json: Decoder) returns (invoked: bool)
      requires w.State() == Http.Fresh()
      modifies w
      ensures Trace(w.State(), invoked) == Handle(d, i, Handler.Handshake, body, json)
    {
      var implements: seq<string> := [];
      if d.Some? {
        implements := implements + ["NetworkDriver"];
      }
      if i.Some? {
        implements := implements + ["IpamDriver"];
      }
      assert implements == Implements(d.Some?, i.Some?);
      EncodeOrSendError(w, HandshakeResp(implements), "encode error");
      invoked := false;
    }

    method GetCapabilities(w: Writer, body: string, json: Decoder) returns (invoked: bool)
      requires w.State() == Http.Fresh()
      modifies w
      ensures Trace(w.State(), invoked) == Handle(d, i, Handler.GetCapabilities, body, json)
    {
      if d.None? {
        w.Abort();
        return false;
      }
      var caps := d.value.getCapabilities();
      ObjectOrErrorResponse(w, Object(caps));
      invoked := true;
    }

    method CreateNetwork(w: Writer, body: string, json: Decoder) returns (invoked: bool)
      requires w.State() == Http.Fresh()
      modifies w
      ensures Trace(w.State(), invoked) == Handle(d, i, Handler.CreateNetwork, body, json)
    {
      invoked := false;
      var create := json.network(Handler.CreateNetwork, body);
      if create.Failure? {
        SendError(w, "Unable to decode JSON payload: " + create.error, Http.StatusBadRequest);
        return;
      }
      if d.None? {
        w.Abort();
        return;
      }
      invoked := true;
      EmptyOrErrorResponse(w, d.value.createNetwork(create.value));
    }

    method DeleteNetwork(w: Writer, body: string, json: Decoder) returns (invoked: bool)
      requires w.State() == Http.Fresh()
      modifies w
      ensures Trace(w.State(), invoked) == Handle(d, i, Handler.DeleteNetwork, body, json)
    {
      invoked := false;
      var delete := json.network(Handler.DeleteNetwork, body);
      if delete.Failure? {
        SendError(w, "Unable to decode JSON payload: " + delete.error, Http.StatusBadRequest);
        return;
      }
      if d.None? {
        w.Abort();
        return;
      }
      invoked := true;
      EmptyOrErrorResponse(w, d.value.deleteNetwork(delete.value));
    }

    method CreateEndpoint(w: Writer, body: string, json: Decoder) returns (invoked: bool)
      requires w.State() == Http.Fresh()
      modifies w
      ensures Trace(w.State(), invoked) == Handle(d, i, Handler.CreateEndpoint, body, json)
    {
      invoked := false;
      var create := json.network(Handler.CreateEndpoint, body);
      if create.Failure? {
        SendError(w, "unable to decode JSON payload: " + create.error, Http.StatusBadRequest);
        return;
      }
      if d.None? {
        w.Abort();
        return;
      }
      invoked := true;
      var res := d.value.createEndpoint(create.value);
      ObjectOrErrorResponse(w, Object(res));
    }

    method DeleteEndpoint(w: Writer, body: string, json: Decoder) returns (invoked: bool)
      requires w.State() == Http.Fresh()
      modifies w
      ensures Trace(w.State(), invoked) == Handle(d, i, Handler.DeleteEndpoint, body, json)
    {
      invoked := false;
      var delete := json.network(Handler.DeleteEndpoint, body);
      if delete.Failure? {
        SendError(w, "Could not decode JSON encode payload", Http.StatusBadRequest);
        return;
      }
      if d.None? {
        w.Abort();
        return;
      }
      invoked := true;
      EmptyOrErrorResponse(w, d.value.deleteEndpoint(delete.value));
    }

    method InfoEndpoint(w: Writer, body: string, json: Decoder) returns (invoked: bool)
      requires w.State() == Http.Fresh()
      modifies w
      ensures Trace(w.State(), invoked) == Handle(d, i, Handler.InfoEndpoint, body, json)
    {
      invoked := false;
      var req := json.network(Handler.InfoEndpoint, body);
      if req.Failure? {
        SendError(w, "Could not decode JSON encode payload", Http.StatusBadRequest);
        return;
      }
      if d.None? {
        w.Abort();
        return;
      }
      invoked := true;
      var info := d.value.endpointInfo(req.value);
      ObjectOrErrorResponse(w, Object(info));
    }

    method JoinEndpoint(w: Writer, body: string, json: Decoder) returns (invoked: bool)
      requires w.State() == Http.Fresh()
      modifies w
      ensures Trace(w.State(), invoked) == Handle(d, i, Handler.JoinEndpoint, body, json)
    {
      invoked := false;
      var join := json.network(Handler.JoinEndpoint, body);
      if join.Failure? {
        SendError(w, "Could not decode JSON encode payload", Http.StatusBadRequest);
        return;
      }
      if d.None? {
        w.Abort();
        return;
      }
      invoked := true;
      var res := d.value.joinEndpoint(join.value);
      ObjectOrErrorResponse(w, Object(res));
    }

    method LeaveEndpoint(w: Writer, body: string, json: Decoder) returns (invoked: bool)
      requires w.State() == Http.Fresh()
      modifies w
      ensures Trace(w.State(), invoked) == Handle(d, i, Handler.LeaveEndpoint, body, json)
    {
      invoked := false;
      var leave := json.network(Handler.LeaveEndpoint, body);
      if leave.Failure? {
        SendError(w, "Could not decode JSON encode payload", Http.StatusBadRequest);
        return;
      }
      if d.None? {
        w.Abort();
        return;
      }
      invoked := true;
      EmptyOrErrorResponse(w, d.value.leaveEndpoint(leave.value));
    }

    /** Defined, but main never routes to it. */
    method DiscoverNew(w: Writer, body: string, json: Decoder) returns (invoked: bool)
      requires w.State() == Http.Fresh()
      modifies w
      ensures Trace(w.State(), invoked) == Handle(d, i, Handler.DiscoverNew, body, json)
    {
      invoked := false;
      var disco := json.network(Handler.DiscoverNew, body);
      if disco.Failure? {
        SendError(w, "Could not decode JSON encode payload", Http.StatusBadRequest);
        return;
      }
      if d.None? {
        w.Abort();
        return;
      }
      invoked := true;
      EmptyOrErrorResponse(w, d.value.discoverNew(disco.value));
    }

    /** Defined, but main never routes to it. */
    method DiscoverDelete(w: Writer, body: string, json: Decoder) returns (invoked: bool)
      requires w.State() == Http.Fresh()
      modifies w
      ensures Trace(w.State(), invoked) == Handle(d, i, Handler.DiscoverDelete, body, json)
    {
      invoked := false;
      var disco := json.network(Handler.DiscoverDelete, body);
      if disco.Failure? {
        SendError(w, "Could not decode JSON encode payload", Http.StatusBadRequest);
        return;
      }
      if d.None? {
        w.Abort();
        return;
      }
      invoked := true;
      EmptyOrErrorResponse(w, d.value.discoverDelete(disco.value));
    }

    method GetDefaultAddressSpaces(w: Writer, body: string, json: Decoder) returns (invoked: bool)
      requires w.State() == Http.Fresh()
      modifies w
      ensures Trace(w.State(), invoked) == Handle(d, i, Handler.GetDefaultAddressSpaces, body, json)
    {
      if i.None? {
        w.Abort();
        return false;
      }
      var spaces := i.value.getDefaultAddressSpaces();
      var response := match spaces
        case Success((local, global)) => Success(AddressSpacesResponse(local, global))
        case Failure(e) => Failure(e);
      ObjectOrErrorResponse(w, response);
      invoked := true;
    }

    method RequestPool(w: Writer, body: string, json: Decoder) returns (invoked: bool)
      requires w.State() == Http.Fresh()
      modifies w
      ensures Trace(w.State(), invoked) == Handle(d, i, Handler.RequestPool, body, json)
    {
      invoked := false;
      var rq := json.requestPool(body);
      var ok := Decode(w, rq);
      if !ok {
        return;
      }
      if i.None? {
        w.Abort();
        return;
      }
      invoked := true;
      var r := i.value.requestPool(rq.value.addressSpace, rq.value.pool, rq.value.subPool, rq.value.options, rq.value.v6);
      if r.Failure? {
        ErrorResponse(w, r.error);
        return;
      }
      var (poolID, pool, data) := r.value;
      ObjectResponse(w, RequestPoolResponse(poolID, pool.str, data));
    }

    method ReleasePool(w: Writer, body: string, json: Decoder) returns (invoked: bool)
      requires w.State() == Http.Fresh()
      modifies w
      ensures Trace(w.State(), invoked) == Handle(d, i, Handler.ReleasePool, body, json)
    {
      invoked := false;
      var rq := json.releasePool(body);
      var ok := Decode(w, rq);
      if !ok {
        return;
      }
      if i.None? {
        w.Abort();
        return;
      }
      invoked := true;
      var err := i.value.releasePool(rq.value.poolID);
      EmptyOrErrorResponse(w, err);
    }

    method RequestAddress(w: Writer, body: string, json: Decoder) returns (invoked: bool)
      requires w.State() == Http.Fresh()
      modifies w
      ensures Trace(w.State(), invoked) == Handle(d, i, Handler.RequestAddress, body, json)
    {
      invoked := false;
      var rq := json.requestAddress(body);
      var ok := Decode(w, rq);
      if !ok {
        return;
      }
      if i.None? {
        w.Abort();
        return;
      }
      invoked := true;
      var r := i.value.requestAddress(rq.value.poolID, ParseIP(rq.value.address), rq.value.options);
      if r.Failure? {
        ErrorResponse(w, r.error);
        return;
      }
      var (address, data) := r.value;
      ObjectResponse(w, RequestAddressResponse(address.str, data));
    }

    method ReleaseAddress(w: Writer, body: string, json: Decoder) returns (invoked: bool)
      requires w.State() == Http.Fresh()
      modifies w
      ensures Trace(w.State(), invoked) == Handle(d, i, Handler.ReleaseAddress, body, json)
    {
      invoked := false;
      var rq := json.releaseAddress(body);
      var ok := Decode(w, rq);
      if !ok {
        return;
      }
      if i.None? {
        w.Abort();
        return;
      }
      invoked := true;
      var err := i.value.releaseAddress(rq.value.poolID, ParseIP(rq.value.address));
      EmptyOrErrorResponse(w, err);
    }

    /** Runs the handler a route names. */
    method Dispatch(w: Writer, h: Handler, body: string, json: Decoder) returns (invoked: bool)
      requires w.State() == Http.Fresh()
      modifies w
      ensures Trace(w.State(), invoked) == Handle(d, i, h, body, json)
    {
      match h
      case Handshake => invoked := Handshake(w, body, json);
      case GetCapabilities => invoked := GetCapabilities(w, body, json);
      case CreateNetwork => invoked := CreateNetwork(w, body, json);
      case DeleteNetwork => invoked := DeleteNetwork(w, body, json);
      case CreateEndpoint => invoked := CreateEndpoint(w, body, json);
      case DeleteEndpoint => invoked := DeleteEndpoint(w, body, json);
      case InfoEndpoint => invoked := InfoEndpoint(w, body, json);
      case JoinEndpoint => invoked := JoinEndpoint(w, body, json);
      case LeaveEndpoint => invoked := LeaveEndpoint(w, body, json);
      case DiscoverNew => invoked := DiscoverNew(w, body, json);
      case DiscoverDelete => invoked := DiscoverDelete(w, body, json);
      case GetDefaultAddressSpaces => invoked := GetDefaultAddressSpaces(w, body, json);
      case RequestPool => invoked := RequestPool(w, body, json);
      case ReleasePool => invoked := ReleasePool(w, body, json);
      case RequestAddress => invoked := RequestAddress(w, body, json);
      case ReleaseAddress => invoked := ReleaseAddress(w, body, json);
    }

    /** The router's Match: the index of the first route matching the
        request's method and path, or the number of routes if none does. */
    method Match(r: Request) returns (k: nat)
      ensures k <= |routes|
      ensures k < |routes| ==> routes[k].route == Route(r.verb, r.path)
      ensures forall j :: 0 <= j < k ==> routes[j].route != Route(r.verb, r.path)
      ensures Lookup(routes, r) == if k < |routes| then Some(routes[k].handler) else None
    {
      k := 0;
      while k < |routes| && routes[k].route != Route(r.verb, r.path)
        invariant 0 <= k <= |routes|
        invariant forall j :: 0 <= j < k ==> routes[j].route != Route(r.verb, r.path)
        invariant Lookup(routes, r) == Lookup(routes[k..], r)
      {
        k := k + 1;
      }
    }

    /** The router's ServeHTTP: the matched handler, or the 404 page. */
    method ServeHTTP(w: Writer, r: Request, json: Decoder) returns (invoked: bool)
      requires Valid() && w.State() == Http.Fresh()
      modifies w
      ensures Trace(w.State(), invoked) == Serve(d, i, r, json)
    {
      var k := Match(r);
      if k == |routes| {
        Http.NotFound(w);
        return false;
      }
      invoked := Dispatch(w, routes[k].handler, r.body, json);
    }
  }
}
