/** What the isolhttps dispatcher promises its callers: which requests reach
    which handler, what a handler answers in each of its outcomes, and the
    shape every response has. */
module IsolHttpsProperties {
  import opened Wrappers
  import opened GoJson
  import GoFmt
  import Http
  import opened IsolHttps

  // ---------------------------------------------------------------------------
  // Routing

  /** Which handlers main makes reachable, written out independently of the
      route table: the handshake and GetCapabilities always, the network
      methods other than the discovery pair with a driver, the IPAM methods
      with an IPAM driver. */
  predicate Routed(hasDriver: bool, hasIpam: bool, h: Handler) {
    match h
    case Handshake => true
    case GetCapabilities => true
    case DiscoverNew => false
    case DiscoverDelete => false
    case _ => if IsIpam(h) then hasIpam else hasDriver
  }

  lemma MethodPathParts(receiver: string, name: string)
    ensures |MethodPath(receiver, name)| == |receiver| + |name| + 2
    ensures MethodPath(receiver, name)[|receiver| + 2..] == name
    ensures |receiver| > 0 ==> MethodPath(receiver, name)[1] == receiver[0]
  {
    var p := MethodPath(receiver, name);
    assert p == "/" + receiver + "." + name;
    assert p[|receiver| + 2..] == name;
  }

  /** The handler a path names, read back from the receiver's first letter
      and the method name. */
  function HandlerNamed(initial: char, name: string): Option<Handler> {
    if initial == 'P' then
      if name == "Activate" then Some(Handshake) else None
    else if initial == 'I' then
      if name == "GetDefaultAddressSpaces" then Some(GetDefaultAddressSpaces)
      else if name == "RequestPool" then Some(RequestPool)
      else if name == "ReleasePool" then Some(ReleasePool)
      else if name == "RequestAddress" then Some(RequestAddress)
      else if name == "ReleaseAddress" then Some(ReleaseAddress)
      else None
    else if name == "GetCapabilities" then Some(GetCapabilities)
    else if name == "CreateNetwork" then Some(CreateNetwork)
    else if name == "DeleteNetwork" then Some(DeleteNetwork)
    else if name == "CreateEndpoint" then Some(CreateEndpoint)
    else if name == "DeleteEndpoint" then Some(DeleteEndpoint)
    else if name == "EndpointOperInfo" then Some(InfoEndpoint)
    else if name == "Join" then Some(JoinEndpoint)
    else if name == "Leave" then Some(LeaveEndpoint)
    else if name == "DiscoverNew" then Some(DiscoverNew)
    else if name == "DiscoverDelete" then Some(DiscoverDelete)
    else None
  }

  lemma HandlerNamedInverts(h: Handler)
    ensures HandlerNamed(Receiver(h)[0], MethodName(h)) == Some(h)
  {
    if IsIpam(h) {
      IpamNamesInvert(h);
    } else if !h.Handshake? {
      NetworkNamesInvert(h);
    }
  }

  lemma IpamNamesInvert(h: Handler)
    requires IsIpam(h)
    ensures HandlerNamed('I', MethodName(h)) == Some(h)
  {
  }

  lemma NetworkNamesInvert(h: Handler)
    requires !IsIpam(h) && !h.Handshake?
    ensures HandlerNamed('N', MethodName(h)) == Some(h)
  {
  }

  /** The length of the receiver whose name starts with initial. */
  function ReceiverLength(initial: char): nat {
    if initial == 'P' then |"Plugin"|
    else if initial == 'I' then |IpamReceiver|
    else |NetworkReceiver|
  }

  /** Reads a protocol path back: the receiver from the character after the
      slash, the method from what follows the dot. */
  function HandlerAtPath(p: string): Option<Handler> {
    if |p| < 2 || |p| < ReceiverLength(p[1]) + 2 then None
    else HandlerNamed(p[1], p[ReceiverLength(p[1]) + 2..])
  }

  lemma ReceiverInitial(h: Handler)
    ensures |Receiver(h)| > 0 && ReceiverLength(Receiver(h)[0]) == |Receiver(h)|
  {
  }

  /** Every handler's path reads back as that handler. */
  lemma PathRoundTrip(h: Handler)
    ensures HandlerAtPath(PathOf(h)) == Some(h)
  {
    ReceiverInitial(h);
    MethodPathParts(Receiver(h), MethodName(h));
    HandlerNamedInverts(h);
  }

  /** No two handlers share a path. */
  lemma PathOfInjective(a: Handler, b: Handler)
    requires PathOf(a) == PathOf(b)
    ensures a == b
  {
    PathRoundTrip(a);
    PathRoundTrip(b);
  }

  predicate WellBound(t: seq<Entry>) {
    forall k :: 0 <= k < |t| ==> t[k] == Bind(t[k].handler)
  }

  /** In a table of protocol bindings, a request finds a handler exactly when
      it is a POST to that handler's path and the handler is bound. */
  lemma {:induction false} LookupBinding(t: seq<Entry>, r: Request, h: Handler)
    requires WellBound(t)
    ensures Lookup(t, r) == Some(h) <==> r.verb == "POST" && r.path == PathOf(h) && Bind(h) in t
  {
    if |t| > 0 {
      var rest := t[1..];
      assert WellBound(rest) by {
        forall k | 0 <= k < |rest| ensures rest[k] == Bind(rest[k].handler) {
          assert rest[k] == t[k + 1];
        }
      }
      LookupBinding(rest, r, h);
      var g := t[0].handler;
      assert t[0] == Bind(g);
      if t[0].route == Route(r.verb, r.path) && g != h && r.path == PathOf(h) {
        PathOfInjective(g, h);
      }
      assert Bind(h) in t <==> Bind(h) == t[0] || Bind(h) in rest by {
        assert t == [t[0]] + rest;
      }
    }
  }

  lemma WellBoundAppend(a: seq<Entry>, b: seq<Entry>)
    requires WellBound(a) && WellBound(b)
    ensures WellBound(a + b)
  {
    forall k | 0 <= k < |a + b|
      ensures (a + b)[k] == Bind((a + b)[k].handler)
    {
      if k >= |a| {
        assert (a + b)[k] == b[k - |a|];
      }
    }
  }

  lemma BindsWellBound(hs: seq<Handler>)
    ensures WellBound(Binds(hs))
  {
  }

  /** A handler's binding is in a block exactly when the handler is. */
  lemma BindsMembership(hs: seq<Handler>, h: Handler)
    ensures Bind(h) in Binds(hs) <==> h in hs
  {
    var t := Binds(hs);
    if h in hs {
      var k :| 0 <= k < |hs| && hs[k] == h;
      assert t[k] == Bind(h);
    }
    if Bind(h) in t {
      var k :| 0 <= k < |t| && t[k] == Bind(h);
      assert hs[k] == h;
    }
  }

  lemma CoreHandlersAre(h: Handler)
    ensures h in CoreHandlers() <==> h.Handshake? || h.GetCapabilities?
  {
  }

  lemma NetworkHandlersAre(h: Handler)
    ensures h in NetworkHandlers() <==> IsNetwork(h) && !h.GetCapabilities? && !h.DiscoverNew? && !h.DiscoverDelete?
  {
  }

  lemma IpamHandlersAre(h: Handler)
    ensures h in IpamHandlers() <==> IsIpam(h)
  {
  }

  lemma RouteTableWellBound(hasDriver: bool, hasIpam: bool)
    ensures WellBound(RouteTable(hasDriver, hasIpam))
  {
    var n: seq<Entry> := if hasDriver then NetworkBindings() else [];
    var m: seq<Entry> := if hasIpam then IpamBindings() else [];
    BindsWellBound(CoreHandlers());
    BindsWellBound(NetworkHandlers());
    BindsWellBound(IpamHandlers());
    WellBoundAppend(CoreBindings(), n);
    WellBoundAppend(CoreBindings() + n, m);
  }

  lemma RouteTableBindings(hasDriver: bool, hasIpam: bool, h: Handler)
    ensures WellBound(RouteTable(hasDriver, hasIpam))
    ensures Bind(h) in RouteTable(hasDriver, hasIpam) <==> Routed(hasDriver, hasIpam, h)
  {
    var n: seq<Entry> := if hasDriver then NetworkBindings() else [];
    var m: seq<Entry> := if hasIpam then IpamBindings() else [];
    RouteTableWellBound(hasDriver, hasIpam);
    var b := Bind(h);
    assert b in RouteTable(hasDriver, hasIpam) <==> b in CoreBindings() || b in n || b in m;
    BindsMembership(CoreHandlers(), h);
    BindsMembership(NetworkHandlers(), h);
    BindsMembership(IpamHandlers(), h);
    CoreHandlersAre(h);
    NetworkHandlersAre(h);
    IpamHandlersAre(h);
  }

  /** The router main builds sends a request to handler h exactly when it is
      a POST to h's path and h is one of the routed handlers. */
  lemma RouteTableSpec(hasDriver: bool, hasIpam: bool, r: Request, h: Handler)
    ensures Lookup(RouteTable(hasDriver, hasIpam), r) == Some(h)
        <==> r.verb == "POST" && r.path == PathOf(h) && Routed(hasDriver, hasIpam, h)
  {
    RouteTableBindings(hasDriver, hasIpam, h);
    LookupBinding(RouteTable(hasDriver, hasIpam), r, h);
  }

  /** A routed request runs its handler on the request body. */
  lemma RoutedRequestHandled(d: Option<NetworkDriver>, i: Option<IpamDriver>, r: Request, json: Decoder, h: Handler)
    requires r.verb == "POST" && r.path == PathOf(h) && Routed(d.Some?, i.Some?, h)
    ensures Serve(d, i, r, json) == Handle(d, i, h, r.body, json)
  {
    RouteTableSpec(d.Some?, i.Some?, r, h);
  }

  /** Any other request gets the 404 page and reaches no handler. */
  lemma UnroutedRequestNotFound(d: Option<NetworkDriver>, i: Option<IpamDriver>, r: Request, json: Decoder)
    requires forall h :: !(r.verb == "POST" && r.path == PathOf(h) && Routed(d.Some?, i.Some?, h))
    ensures Serve(d, i, r, json) == Trace(Http.Exchange(Some(404), [Http.Text("404 page not found\n")], false), false)
  {
    var l := Lookup(RouteTable(d.Some?, i.Some?), r);
    if l.Some? {
      RouteTableSpec(d.Some?, i.Some?, r, l.value);
      assert false;
    }
    assert "404 page not found" + "\n" == "404 page not found\n";
  }

  /** Only POST is routed: any other method is answered 404, even on a
      protocol path. */
  lemma NonPostNotFound(d: Option<NetworkDriver>, i: Option<IpamDriver>, r: Request, json: Decoder)
    requires r.verb != "POST"
    ensures Serve(d, i, r, json) == Trace(Http.Exchange(Some(404), [Http.Text("404 page not found\n")], false), false)
  {
    UnroutedRequestNotFound(d, i, r, json);
  }

  /** The discovery handlers exist but are never routed: their paths get 404
      whatever the capabilities. */
  lemma DiscoveryNotFound(d: Option<NetworkDriver>, i: Option<IpamDriver>, r: Request, json: Decoder)
    requires r.path == PathOf(DiscoverNew) || r.path == PathOf(DiscoverDelete)
    ensures Serve(d, i, r, json) == Trace(Http.Exchange(Some(404), [Http.Text("404 page not found\n")], false), false)
  {
    forall h | r.verb == "POST" && r.path == PathOf(h)
      ensures !Routed(d.Some?, i.Some?, h)
    {
      if r.path == PathOf(DiscoverNew) {
        PathOfInjective(h, DiscoverNew);
      } else {
        PathOfInjective(h, DiscoverDelete);
      }
    }
    UnroutedRequestNotFound(d, i, r, json);
  }

  /** Without a network driver the network methods other than
      GetCapabilities are not routed. */
  lemma NoDriverNoNetworkRoutes(i: Option<IpamDriver>, r: Request, json: Decoder, h: Handler)
    requires IsNetwork(h) && !h.GetCapabilities? && r.path == PathOf(h)
    ensures Serve(None, i, r, json) == Trace(Http.Exchange(Some(404), [Http.Text("404 page not found\n")], false), false)
  {
    forall g | r.verb == "POST" && r.path == PathOf(g)
      ensures !Routed(false, i.Some?, g)
    {
      PathOfInjective(g, h);
    }
    UnroutedRequestNotFound(None, i, r, json);
  }

  // ---------------------------------------------------------------------------
  // The handshake

  /** Plugin.Activate is always routed and always answers 200 with the list
      of present capabilities. */
  lemma ActivateAnswersCapabilities(d: Option<NetworkDriver>, i: Option<IpamDriver>, body: string, json: Decoder)
    ensures Serve(d, i, Request("POST", "/Plugin.Activate", body), json)
         == Trace(Http.Exchange(Some(200), [Http.Encoded(HandshakeResp(Implements(d.Some?, i.Some?)))], false), false)
  {
    CorePaths();
    RoutedRequestHandled(d, i, Request("POST", "/Plugin.Activate", body), json, Handshake);
  }

  // ---------------------------------------------------------------------------
  // Handler outcomes

  /** A body that does not decode is answered 400 with the handler's own
      message, and the capability is not called. */
  lemma DecodeFailureShortCircuits(d: Option<NetworkDriver>, i: Option<IpamDriver>, h: Handler, body: string, json: Decoder, err: string)
    requires DecodeError(json, h, body) == Some(err)
    ensures Handle(d, i, h, body, json)
         == Trace(Http.Exchange(Some(400), [Http.Text(DecodeFailureText(h, err) + "\n")], false), false)
  {
  }

  /** A missing capability makes the handler panic once the body has
      decoded; the server drops the connection without a response. */
  lemma MissingCapabilityPanics(d: Option<NetworkDriver>, i: Option<IpamDriver>, h: Handler, body: string, json: Decoder)
    requires !h.Handshake? && DecodeError(json, h, body).None? && !Present(d, i, h)
    ensures Handle(d, i, h, body, json) == Trace(Http.Exchange(None, [], true), false)
  {
  }

  /** A driver error is answered 500 with {"Err": ...}, the message having
      gone through fmt.Sprintf as a format string. */
  lemma DriverErrorEnvelope(d: Option<NetworkDriver>, i: Option<IpamDriver>, h: Handler, body: string, json: Decoder, msg: string)
    requires !h.Handshake? && DecodeError(json, h, body).None? && Present(d, i, h)
    requires Answer(d, i, h, body, json) == Failure(msg)
    ensures Handle(d, i, h, body, json)
         == Trace(Http.Exchange(Some(500), [Http.Encoded(ErrObject(GoFmt.Sprintf(msg)))], false), true)
  {
  }

  /** A driver error without '%' reaches the client verbatim. */
  lemma PlainDriverErrorVerbatim(d: Option<NetworkDriver>, i: Option<IpamDriver>, h: Handler, body: string, json: Decoder, msg: string)
    requires !h.Handshake? && DecodeError(json, h, body).None? && Present(d, i, h)
    requires Answer(d, i, h, body, json) == Failure(msg) && '%' !in msg
    ensures Handle(d, i, h, body, json)
         == Trace(Http.Exchange(Some(500), [Http.Encoded(ErrObject(msg))], false), true)
  {
  }

  /** A driver result is answered 200 with the result, or 500 with a fixed
      text when it does not marshal. */
  lemma DriverSuccessEnvelope(d: Option<NetworkDriver>, i: Option<IpamDriver>, h: Handler, body: string, json: Decoder, p: Payload)
    requires !h.Handshake? && DecodeError(json, h, body).None? && Present(d, i, h)
    requires Answer(d, i, h, body, json) == Success(p)
    ensures Marshals(p) ==>
      Handle(d, i, h, body, json) == Trace(Http.Exchange(Some(200), [Http.Encoded(p)], false), true)
    ensures !Marshals(p) ==>
      Handle(d, i, h, body, json) == Trace(Http.Exchange(Some(500), [Http.Text("Could not JSON encode response\n")], false), true)
  {
    assert "Could not JSON encode response" + "\n" == "Could not JSON encode response\n";
  }

  /** The operations without a result answer success with an empty object. */
  lemma NoPayloadAnswersEmpty(d: Option<NetworkDriver>, i: Option<IpamDriver>, h: Handler, body: string, json: Decoder)
    requires !h.Handshake? && DecodeError(json, h, body).None? && Present(d, i, h)
    requires NoPayload(h) && Answer(d, i, h, body, json).Success?
    ensures Handle(d, i, h, body, json)
         == Trace(Http.Exchange(Some(200), [Http.Encoded(EmptyObject)], false), true)
  {
  }

  /** RequestPool passes the decoded request's fields to the IPAM driver and
      answers with the pool's ID, its text form and the driver's data. */
  lemma RequestPoolForwards(d: Option<NetworkDriver>, ipam: IpamDriver, body: string, json: Decoder,
                            rq: RequestPoolRequest, poolID: string, pool: IPNet, data: map<string, string>)
    requires json.requestPool(body) == Success(rq)
    requires ipam.requestPool(rq.addressSpace, rq.pool, rq.subPool, rq.options, rq.v6) == Success((poolID, pool, data))
    ensures Handle(d, Some(ipam), RequestPool, body, json)
         == Trace(Http.Exchange(Some(200), [Http.Encoded(RequestPoolResponse(poolID, pool.str, data))], false), true)
  {
  }

  /** RequestAddress hands the driver the parsed preferred address and answers
      with the address's text form and the driver's data. */
  lemma RequestAddressForwards(d: Option<NetworkDriver>, ipam: IpamDriver, body: string, json: Decoder,
                               rq: RequestAddressRequest, address: IPNet, data: map<string, string>)
    requires json.requestAddress(body) == Success(rq)
    requires ipam.requestAddress(rq.poolID, ParseIP(rq.address), rq.options) == Success((address, data))
    ensures Handle(d, Some(ipam), RequestAddress, body, json)
         == Trace(Http.Exchange(Some(200), [Http.Encoded(RequestAddressResponse(address.str, data))], false), true)
  {
  }

  /** GetDefaultAddressSpaces answers with the two space names, local first. */
  lemma AddressSpacesForwarded(d: Option<NetworkDriver>, ipam: IpamDriver, body: string, json: Decoder, local: string, global: string)
    requires ipam.getDefaultAddressSpaces() == Success((local, global))
    ensures Handle(d, Some(ipam), GetDefaultAddressSpaces, body, json)
         == Trace(Http.Exchange(Some(200), [Http.Encoded(AddressSpacesResponse(local, global))], false), true)
  {
  }

  // ---------------------------------------------------------------------------
  // The shape of every response

  /** Whether a response is a well-formed single answer: either the
      connection was dropped before anything was written, or a status was
      fixed and exactly one body write followed; a status of 500 goes with the
      error envelope or a text, 200 with an encoded value, 400 and 404 with a
      text. */
  predicate WellFormed(e: Reply) {
    if e.aborted then e.header.None? && e.body == []
    else
      e.header.Some? && |e.body| == 1 &&
      match e.body[0]
      case Text(_) => e.Status() in {400, 404, 500}
      case Encoded(p) => e.Status() == (if p.ErrObject? then 500 else 200)
  }

  lemma EncodeOrSendErrorWellFormed(p: Payload, fallback: string)
    requires !p.ErrObject?
    ensures WellFormed(AfterEncodeOrSendError(Http.Fresh(), p, fallback))
  {
    var start := Http.Fresh<Payload>();
    if Marshals(p) {
      assert start.Write(Http.Encoded(p)) == Http.Exchange(Some(200), [Http.Encoded(p)], false);
    } else {
      var t := Http.Text(fallback + "\n");
      assert start.Error(fallback, 500) == Http.Exchange(Some(500), [t], false);
    }
  }

  lemma AnswerWellFormed(r: Result<Payload, string>)
    requires r.Success? ==> !r.value.ErrObject?
    ensures WellFormed(AfterObjectOrErrorResponse(Http.Fresh(), r))
    ensures !AfterObjectOrErrorResponse(Http.Fresh(), r).aborted
  {
    if r.Success? {
      EncodeOrSendErrorWellFormed(r.value, "Could not JSON encode response");
    } else {
      var c := Http.Encoded(ErrObject(GoFmt.Sprintf(r.error)));
      assert AfterObjectOrErrorResponse(Http.Fresh(), r) == Http.Exchange(Some(500), [c], false);
    }
  }

  lemma HandleWellFormed(d: Option<NetworkDriver>, i: Option<IpamDriver>, h: Handler, body: string, json: Decoder)
    ensures WellFormed(Handle(d, i, h, body, json).reply)
    ensures Handle(d, i, h, body, json).invoked ==> !Handle(d, i, h, body, json).reply.aborted
  {
    var start := Http.Fresh<Payload>();
    if h.Handshake? {
      EncodeOrSendErrorWellFormed(HandshakeResp(Implements(d.Some?, i.Some?)), "encode error");
    } else if DecodeError(json, h, body).Some? {
      var t := Http.Text(DecodeFailureText(h, DecodeError(json, h, body).value) + "\n");
      assert Handle(d, i, h, body, json).reply == Http.Exchange(Some(400), [t], false);
    } else if !Present(d, i, h) {
      assert Handle(d, i, h, body, json).reply == start.Panic();
    } else {
      AnswerWellFormed(Answer(d, i, h, body, json));
    }
  }

  /** Every request gets one well-formed answer. */
  lemma ServeWellFormed(d: Option<NetworkDriver>, i: Option<IpamDriver>, r: Request, json: Decoder)
    ensures WellFormed(Serve(d, i, r, json).reply)
  {
    var l := Lookup(RouteTable(d.Some?, i.Some?), r);
    if l.Some? {
      HandleWellFormed(d, i, l.value, r.body, json);
    }
  }

  /** A handler drops the connection exactly when its body decoded and the
      capability it calls is missing. */
  lemma HandleAborts(d: Option<NetworkDriver>, i: Option<IpamDriver>, h: Handler, body: string, json: Decoder)
    ensures Handle(d, i, h, body, json).reply.aborted
        <==> !h.Handshake? && DecodeError(json, h, body).None? && !Present(d, i, h)
  {
    HandleWellFormed(d, i, h, body, json);
    if !h.Handshake? && DecodeError(json, h, body).None? && !Present(d, i, h) {
      assert Handle(d, i, h, body, json).reply == Http.Fresh<Payload>().Panic();
    }
  }

  /** The only request that drops the connection is GetCapabilities without
      a network driver. */
  lemma AbortOnlyWithoutDriverCapabilities(d: Option<NetworkDriver>, i: Option<IpamDriver>, r: Request, json: Decoder)
    ensures Serve(d, i, r, json).reply.aborted
        <==> d.None? && r.verb == "POST" && r.path == PathOf(GetCapabilities)
  {
    var l := Lookup(RouteTable(d.Some?, i.Some?), r);
    if l.Some? {
      RouteTableSpec(d.Some?, i.Some?, r, l.value);
      HandleAborts(d, i, l.value, r.body, json);
    }
    if d.None? && r.verb == "POST" && r.path == PathOf(GetCapabilities) {
      RouteTableSpec(d.Some?, i.Some?, r, GetCapabilities);
    }
  }

  /** A capability is called exactly for a routed request, other than the
      handshake, whose body decoded and whose capability is present. */
  lemma InvokedOnlyAfterDecode(d: Option<NetworkDriver>, i: Option<IpamDriver>, r: Request, json: Decoder)
    ensures var l := Lookup(RouteTable(d.Some?, i.Some?), r);
      Serve(d, i, r, json).invoked
      <==> l.Some? && !l.value.Handshake? && DecodeError(json, l.value, r.body).None? && Present(d, i, l.value)
  {
  }
}
