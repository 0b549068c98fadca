/** The mojaipam request handler: an IPAM-only plugin endpoint with a fixed
    manifest and six fixed paths, each forwarding to an Ipam implementation
    through the plugin SDK's DecodeRequest and EncodeResponse. The SDK's own
    code is not part of this model; its effect on a response is recorded as
    events (one per encoded value) without the HTTP status it chooses. */
module MojaIpam {
  import opened Wrappers

  const Manifest := "{\"Implements\": [\"IpamDriver\"]}"

  const CapabilitiesPath := "/IpamDriver.GetCapabilities"
  const AddressSpacesPath := "/IpamDriver.GetDefaultAddressSpaces"
  const RequestPoolPath := "/IpamDriver.RequestPool"
  const ReleasePoolPath := "/IpamDriver.ReleasePool"
  const RequestAddressPath := "/IpamDriver.RequestAddress"
  const ReleaseAddressPath := "/IpamDriver.ReleaseAddress"

  // ---------------------------------------------------------------------------
  // Wire records

  datatype CapabilitiesResponse = CapabilitiesResponse(requiresMACAddress: bool)
  datatype AddressSpacesResponse = AddressSpacesResponse(localDefaultAddressSpace: string, globalDefaultAddressSpace: string)
  datatype RequestPoolRequest = RequestPoolRequest(
    addressSpace: string, pool: string, subPool: string, options: map<string, string>, v6: bool)
  datatype RequestPoolResponse = RequestPoolResponse(poolID: string, pool: string, data: map<string, string>)
  datatype ReleasePoolRequest = ReleasePoolRequest(poolID: string)
  datatype RequestAddressRequest = RequestAddressRequest(poolID: string, address: string, options: map<string, string>)
  datatype RequestAddressResponse = RequestAddressResponse(address: string, data: map<string, string>)
  datatype ReleaseAddressRequest = ReleaseAddressRequest(poolID: string, address: string)
  /** A message libnetwork reads as an error. */
  datatype ErrorResponse = ErrorResponse(err: string)

  function NewErrorResponse(msg: string): (r: ErrorResponse)
    ensures r.err == msg
  {
    ErrorResponse(msg)
  }

  /** The Ipam interface. A nil Ipam is None. */
  datatype Ipam = Ipam(
    getCapabilities: () -> Result<CapabilitiesResponse, string>,
    getDefaultAddressSpaces: () -> Result<AddressSpacesResponse, string>,
    requestPool: RequestPoolRequest -> Result<RequestPoolResponse, string>,
    releasePool: ReleasePoolRequest -> Outcome<string>,
    requestAddress: RequestAddressRequest -> Result<RequestAddressResponse, string>,
    releaseAddress: ReleaseAddressRequest -> Outcome<string>)

  /** What the SDK's DecodeRequest makes of a request body for each record;
      None when it rejects the body. */
  datatype Decoder = Decoder(
    requestPool: string -> Option<RequestPoolRequest>,
    releasePool: string -> Option<ReleasePoolRequest>,
    requestAddress: string -> Option<RequestAddressRequest>,
    releaseAddress: string -> Option<ReleaseAddressRequest>)

  /** The values the handlers hand to EncodeResponse. */
  datatype Response =
    | Capabilities(capabilities: CapabilitiesResponse)
    | AddressSpaces(spaces: AddressSpacesResponse)
    | Pool(pool: RequestPoolResponse)
    | Address(address: RequestAddressResponse)
      /** make(map[string]string) */
    | EmptyMap
    | Error(error: ErrorResponse)

  /** What happens to a response: DecodeRequest rejecting the body (and
      answering the client itself), one EncodeResponse call with its value
      and error string, or a panic from calling a nil Ipam. */
  datatype Event = DecodeRejected | Encoded(response: Response, err: string) | Panicked

  /** The six handlers initMux registers. */
  datatype Op = GetCapabilities | GetDefaultAddressSpaces | RequestPool | ReleasePool | RequestAddress | ReleaseAddress

  /** The six paths initMux registers. */
  const OpPaths := {CapabilitiesPath, AddressSpacesPath, RequestPoolPath, ReleasePoolPath, RequestAddressPath, ReleaseAddressPath}

  /** A path table after initMux has registered its six paths on it, in
      its order: the six paths are added and every other entry is kept. */
  function Mount(m: map<string, Op>): (r: map<string, Op>)
    ensures r.Keys == m.Keys + OpPaths
    ensures forall p :: p in m && p !in OpPaths ==> r[p] == m[p]
  {
    m[CapabilitiesPath := GetCapabilities]
     [AddressSpacesPath := GetDefaultAddressSpaces]
     [RequestPoolPath := RequestPool]
     [ReleasePoolPath := ReleasePool]
     [RequestAddressPath := RequestAddress]
     [ReleaseAddressPath := ReleaseAddress]
  }

  /** The paths initMux registers on a fresh handler and the operation behind
      each: the six paths and nothing else. The SDK's own routes are not
      part of this model. */
  function Routes(): (r: map<string, Op>)
    ensures r.Keys == OpPaths
  {
    Mount(map[])
  }

  // ---------------------------------------------------------------------------
  // What each handler does

  /** The events for a driver result: the error envelope with the message
      as the error string, or the result with an empty error string. */
  function Envelope(r: Result<Response, string>): seq<Event> {
    match r
    case Failure(msg) => [Encoded(Error(NewErrorResponse(msg)), msg)]
    case Success(res) => [Encoded(res, "")]
  }

  function Lift<T>(r: Result<T, string>, wrap: T -> Response): Result<Response, string> {
    match r
    case Success(v) => Success(wrap(v))
    case Failure(e) => Failure(e)
  }

  function Unit(o: Outcome<string>): Result<Response, string> {
    match o
    case Pass => Success(EmptyMap)
    case Fail(e) => Failure(e)
  }

  /** Whether the handler's request body decodes (the two handlers without
      a request record read no body). */
  predicate Decodes(json: Decoder, op: Op, body: string) {
    match op
    case GetCapabilities => true
    case GetDefaultAddressSpaces => true
    case RequestPool => json.requestPool(body).Some?
    case ReleasePool => json.releasePool(body).Some?
    case RequestAddress => json.requestAddress(body).Some?
    case ReleaseAddress => json.releaseAddress(body).Some?
  }

  /** What the Ipam answers a decoded request with, as the value the
      handler encodes on success. */
  function Call(ipam: Ipam, op: Op, body: string, json: Decoder): Result<Response, string>
    requires Decodes(json, op, body)
  {
    match op
    case GetCapabilities => Lift(ipam.getCapabilities(), c => Capabilities(c))
    case GetDefaultAddressSpaces => Lift(ipam.getDefaultAddressSpaces(), s => AddressSpaces(s))
    case RequestPool => Lift(ipam.requestPool(json.requestPool(body).value), p => Pool(p))
    case ReleasePool => Unit(ipam.releasePool(json.releasePool(body).value))
    case RequestAddress => Lift(ipam.requestAddress(json.requestAddress(body).value), a => Address(a))
    case ReleaseAddress => Unit(ipam.releaseAddress(json.releaseAddress(body).value))
  }

  /** The events one handler produces for a request body: the rejection, a
      panic on a nil Ipam, or the envelope of the Ipam's answer. Every
      request ends in one event, except a failed ReleaseAddress, which has
      no return after its error envelope and encodes the empty map too. */
  function HandleOp(ipam: Option<Ipam>, op: Op, body: string, json: Decoder): (ev: seq<Event>)
    ensures |ev| == 1 || (|ev| == 2 && op.ReleaseAddress? && ev[1] == Encoded(EmptyMap, ""))
    ensures ev[0] == DecodeRejected <==> !Decodes(json, op, body)
    ensures ev[0] == Panicked <==> Decodes(json, op, body) && ipam.None?
  {
    if !Decodes(json, op, body) then [DecodeRejected]
    else if ipam.None? then [Panicked]
    else
      var r := Call(ipam.value, op, body, json);
      if op.ReleaseAddress? && r.Failure? then Envelope(r) + [Encoded(EmptyMap, "")]
      else Envelope(r)
  }

  // ---------------------------------------------------------------------------
  // The SDK calls, on a response

  /** A response as the handlers see it through the SDK: what has been done
      to it so far, in order. */
  class Writer {
    var events: seq<Event>

    constructor ()
      ensures events == []
    {
      events := [];
    }

    method Record(e: Event)
      modifies this
      ensures events == old(events) + [e]
    {
      events := events + [e];
    }
  }

  /** sdk.EncodeResponse(w, res, err) */
  method EncodeResponse(w: Writer, res: Response, err: string)
    modifies w
    ensures w.events == old(w.events) + [Encoded(res, err)]
  {
    w.Record(Encoded(res, err));
  }

  /** sdk.DecodeRequest(w, r, req): the decoded record, or None once the SDK
      has rejected the body. */
  method DecodeRequest<T>(w: Writer, decoded: Option<T>) returns (req: Option<T>)
    modifies w
    ensures req == decoded
    ensures w.events == old(w.events) + (if decoded.None? then [DecodeRejected] else [])
  {
    req := decoded;
    if decoded.None? {
      w.Record(DecodeRejected);
    }
  }

  /** The error branch every handler shares: encode NewErrorResponse(msg)
      with msg as the error string. */
  method EncodeError(w: Writer, msg: string)
    modifies w
    ensures w.events == old(w.events) + Envelope(Failure(msg))
  {
    EncodeResponse(w, Error(NewErrorResponse(msg)), msg);
  }

  // ---------------------------------------------------------------------------
  // The handler

  /** Handler: the Ipam it forwards to and the SDK handler's manifest and
      path registrations. */
  class Handler {
    const ipam: Option<Ipam>
    const manifest: string
    var paths: map<string, Op>

    ghost predicate Valid()
      reads this
    {
      paths == Routes()
    }

    /** NewHandler */
    constructor (mojaipam: Option<Ipam>)
      ensures ipam == mojaipam && manifest == Manifest
      ensures Valid()
    {
      ipam := mojaipam;
      manifest := Manifest;
      paths := map[];
      new;
      InitMux();
    }

    /** The SDK handler's HandleFunc. */
    method HandleFunc(path: string, op: Op)
      modifies this
      ensures paths == old(paths)[path := op]
    {
      paths := paths[path := op];
    }

    method InitMux()
      modifies this
      ensures paths == Mount(old(paths))
    {
      HandleFunc(CapabilitiesPath, Op.GetCapabilities);
      HandleFunc(AddressSpacesPath, Op.GetDefaultAddressSpaces);
      HandleFunc(RequestPoolPath, Op.RequestPool);
      HandleFunc(ReleasePoolPath, Op.ReleasePool);
      HandleFunc(RequestAddressPath, Op.RequestAddress);
      HandleFunc(ReleaseAddressPath, Op.ReleaseAddress);
    }

    method GetCapabilities(w: Writer, body: string, json: Decoder)
      modifies w
      ensures w.events == old(w.events) + HandleOp(ipam, Op.GetCapabilities, body, json)
    {
      if ipam.None? {
        w.Record(Panicked);
        return;
      }
      var res := ipam.value.getCapabilities();
      if res.Failure? {
        EncodeError(w, res.error);
        return;
      }
      EncodeResponse(w, Capabilities(res.value), "");
    }

    method GetDefaultAddressSpaces(w: Writer, body: string, json: Decoder)
      modifies w
      ensures w.events == old(w.events) + HandleOp(ipam, Op.GetDefaultAddressSpaces, body, json)
    {
      if ipam.None? {
        w.Record(Panicked);
        return;
      }
      var res := ipam.value.getDefaultAddressSpaces();
      if res.Failure? {
        EncodeError(w, res.error);
        return;
      }
      EncodeResponse(w, AddressSpaces(res.value), "");
    }

    method RequestPool(w: Writer, body: string, json: Decoder)
      modifies w
      ensures w.events == old(w.events) + HandleOp(ipam, Op.RequestPool, body, json)
    {
      var req := DecodeRequest(w, json.requestPool(body));
      if req.None? {
        return;
      }
      if ipam.None? {
        w.Record(Panicked);
        return;
      }
      var res := ipam.value.requestPool(req.value);
      if res.Failure? {
        EncodeError(w, res.error);
        return;
      }
      EncodeResponse(w, Pool(res.value), "");
    }

    method ReleasePool(w: Writer, body: string, json: Decoder)
      modifies w
      ensures w.events == old(w.events) + HandleOp(ipam, Op.ReleasePool, body, json)
    {
      var req := DecodeRequest(w, json.releasePool(body));
      if req.None? {
        return;
      }
      if ipam.None? {
        w.Record(Panicked);
        return;
      }
      var err := ipam.value.releasePool(req.value);
      if err.Fail? {
        EncodeError(w, err.error);
        return;
      }
      EncodeResponse(w, EmptyMap, "");
    }

    method RequestAddress(w: Writer, body: string, json: Decoder)
      modifies w
      ensures w.events == old(w.events) + HandleOp(ipam, Op.RequestAddress, body, json)
    {
      var req := DecodeRequest(w, json.requestAddress(body));
      if req.None? {
        return;
      }
      if ipam.None? {
        w.Record(Panicked);
        return;
      }
      var res := ipam.value.requestAddress(req.value);
      if res.Failure? {
        EncodeError(w, res.error);
        return;
      }
      EncodeResponse(w, Address(res.value), "");
    }

    method ReleaseAddress(w: Writer, body: string, json: Decoder)
      modifies w
      ensures w.events == old(w.events) + HandleOp(ipam, Op.ReleaseAddress, body, json)
    {
      var req := DecodeRequest(w, json.releaseAddress(body));
      if req.None? {
        return;
      }
      if ipam.None? {
        w.Record(Panicked);
        return;
      }
      var err := ipam.value.releaseAddress(req.value);
      if err.Fail? {
        EncodeError(w, err.error);
      }
      EncodeResponse(w, EmptyMap, "");
    }

    /** The SDK's mux serving one request: the handler registered for its
        path, if any. */
    method Serve(w: Writer, path: string, body: string, json: Decoder) returns (routed: bool)
      requires Valid()
      modifies w
      ensures routed <==> path in Routes()
      ensures w.events == old(w.events) + (if routed then HandleOp(ipam, Routes()[path], body, json) else [])
    {
      routed := path in paths;
      if !routed {
        return;
      }
      match paths[path]
      case GetCapabilities => GetCapabilities(w, body, json);
      case GetDefaultAddressSpaces => GetDefaultAddressSpaces(w, body, json);
      case RequestPool => RequestPool(w, body, json);
      case ReleasePool => ReleasePool(w, body, json);
      case RequestAddress => RequestAddress(w, body, json);
      case ReleaseAddress => ReleaseAddress(w, body, json);
    }
  }
}
