/** The mojaplugin stub IPAM: six methods that ignore their request and
    return constants, and the wiring in its main, which hands the mojaipam
    handler the struct's zero-valued Ipam field rather than the stub. */
module MojaPlugin {
  import opened Wrappers
  import opened MojaIpam
  import opened MojaIpamProperties

  /** Label keys of libnetwork's netlabel package. */
  const NetlabelPrefix := "com.docker.network"
  const NetlabelDriverPrefix := NetlabelPrefix + ".driver"

  /** The mojaplugin struct. */
  datatype Mojaplugin = Mojaplugin(i: Option<Ipam>)

  /** The stub needs no MAC address. */
  function GetCapabilities(): (r: Result<CapabilitiesResponse, string>)
    ensures r.Success? && !r.value.requiresMACAddress
  {
    Success(CapabilitiesResponse(false))
  }

  /** The stub's two address spaces. */
  function GetDefaultAddressSpaces(): (r: Result<AddressSpacesResponse, string>)
    ensures r == Success(AddressSpacesResponse("mojaLocal", "mojaGlobal"))
  {
    Success(AddressSpacesResponse("mojaLocal", "mojaGlobal"))
  }

  /** Whatever is asked for, the same pool, labelled with the network
      label prefix. */
  function RequestPool(req: RequestPoolRequest): (r: Result<RequestPoolResponse, string>)
    ensures r.Success? && r.value.poolID == "poolId" && r.value.pool == "pool"
    ensures r.value.data == map["com.docker.network" := "10.2.3.0"]
  {
    assert NetlabelPrefix == "com.docker.network";
    Success(RequestPoolResponse("poolId", "pool", map[NetlabelPrefix := "10.2.3.0"]))
  }

  /** Any pool is released. */
  function ReleasePool(req: ReleasePoolRequest): (r: Outcome<string>)
    ensures r.Pass?
  {
    Pass
  }

  /** Whatever is asked for, the same address, labelled with the driver
      label prefix. */
  function RequestAddress(req: RequestAddressRequest): (r: Result<RequestAddressResponse, string>)
    ensures r.Success? && r.value.address == "10.2.3.x"
    ensures r.value.data == map["com.docker.network.driver" := "10.2.3.5"]
  {
    assert NetlabelDriverPrefix == "com.docker.network.driver";
    Success(RequestAddressResponse("10.2.3.x", map[NetlabelDriverPrefix := "10.2.3.5"]))
  }

  /** Any address is released. */
  function ReleaseAddress(req: ReleaseAddressRequest): (r: Outcome<string>)
    ensures r.Pass?
  {
    Pass
  }

  /** The methods of *mojaplugin, as an Ipam: each of its six operations
      is the stub method of the same name. */
  function Stub(): (ipam: Ipam)
    ensures ipam.getCapabilities() == GetCapabilities()
    ensures ipam.getDefaultAddressSpaces() == GetDefaultAddressSpaces()
    ensures forall req :: ipam.requestPool(req) == RequestPool(req)
    ensures forall req :: ipam.releasePool(req) == ReleasePool(req)
    ensures forall req :: ipam.requestAddress(req) == RequestAddress(req)
    ensures forall req :: ipam.releaseAddress(req) == ReleaseAddress(req)
  {
    Ipam(() => GetCapabilities(), () => GetDefaultAddressSpaces(),
         req => RequestPool(req), req => ReleasePool(req),
         req => RequestAddress(req), req => ReleaseAddress(req))
  }

  /** No stub method fails, and none looks at its request: each decodable
      request is answered with the stub's constant. */
  lemma StubNeverFails(op: Op, body: string, json: Decoder)
    requires Decodes(json, op, body)
    ensures Call(Stub(), op, body, json).Success?
    ensures op.GetCapabilities? ==> Call(Stub(), op, body, json).value == Capabilities(CapabilitiesResponse(false))
    ensures op.GetDefaultAddressSpaces? ==>
      Call(Stub(), op, body, json).value == AddressSpaces(AddressSpacesResponse("mojaLocal", "mojaGlobal"))
    ensures op.RequestPool? ==>
      Call(Stub(), op, body, json).value == Pool(RequestPoolResponse("poolId", "pool", map["com.docker.network" := "10.2.3.0"]))
    ensures op.RequestAddress? ==>
      Call(Stub(), op, body, json).value == Address(RequestAddressResponse("10.2.3.x", map["com.docker.network.driver" := "10.2.3.5"]))
    ensures op.ReleasePool? || op.ReleaseAddress? ==> Call(Stub(), op, body, json).value == EmptyMap
  {
  }

  /** Served through the mojaipam handler, every decodable request to the
      stub gets exactly one encoded constant answer and an empty error
      string: no error envelope, and ReleaseAddress's double write never
      happens. */
  lemma StubScenario(op: Op, body: string, json: Decoder)
    requires Decodes(json, op, body)
    ensures Call(Stub(), op, body, json).Success?
    ensures HandleOp(Some(Stub()), op, body, json) == [Encoded(Call(Stub(), op, body, json).value, "")]
    ensures forall e | e in HandleOp(Some(Stub()), op, body, json) :: e.Encoded? && !e.response.Error?
  {
    StubNeverFails(op, body, json);
    SuccessEncodesResult(Stub(), op, body, json, Call(Stub(), op, body, json).value);
  }

  /** main: the handler gets isolator.i, the zero value of the field, so it
      is built around a nil Ipam. */
  method Start() returns (handler: Handler)
    ensures handler.ipam.None? && handler.manifest == Manifest && handler.Valid()
  {
    var isolator := Mojaplugin(None);
    handler := new Handler(isolator.i);
  }

  /** With the handler main builds, a decodable request panics on the nil
      Ipam where the stub would have answered: the stub is never reached. */
  lemma StubNeverWiredIn(op: Op, body: string, json: Decoder)
    requires Decodes(json, op, body)
    ensures HandleOp(Mojaplugin(None).i, op, body, json) == [Panicked]
    ensures HandleOp(Mojaplugin(None).i, op, body, json) != HandleOp(Some(Stub()), op, body, json)
  {
    NilIpamPanics(op, body, json);
    StubScenario(op, body, json);
  }
}
