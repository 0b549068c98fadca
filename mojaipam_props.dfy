/** What the mojaipam handler promises: the paths it serves, and for each
    outcome of decoding and of the Ipam call, exactly what it encodes. */
module MojaIpamProperties {
  import opened Wrappers
  import opened MojaIpam

  /** The handshake document of a plugin implementing the given
      capabilities, as the plugin SDK's manifests write it. */
  function ManifestFor(caps: seq<string>): string {
    "{\"Implements\": [" + QuotedList(caps) + "]}"
  }

  function QuotedList(caps: seq<string>): string {
    if caps == [] then ""
    else if |caps| == 1 then "\"" + caps[0] + "\""
    else "\"" + caps[0] + "\", " + QuotedList(caps[1..])
  }

  /** The manifest declares exactly one capability, the IPAM one. */
  lemma ManifestDeclaresIpamOnly()
    ensures Manifest == ManifestFor(["IpamDriver"])
  {
    assert QuotedList(["IpamDriver"]) == "\"IpamDriver\"";
  }

  /** The method each handler serves, as named in its path. */
  function OpName(op: Op): string {
    match op
    case GetCapabilities => "GetCapabilities"
    case GetDefaultAddressSpaces => "GetDefaultAddressSpaces"
    case RequestPool => "RequestPool"
    case ReleasePool => "ReleasePool"
    case RequestAddress => "RequestAddress"
    case ReleaseAddress => "ReleaseAddress"
  }

  function OpPath(op: Op): string {
    "/IpamDriver." + OpName(op)
  }

  /** The path constant initMux registers each handler at. */
  function RegisteredPath(op: Op): string {
    match op
    case GetCapabilities => CapabilitiesPath
    case GetDefaultAddressSpaces => AddressSpacesPath
    case RequestPool => RequestPoolPath
    case ReleasePool => ReleasePoolPath
    case RequestAddress => RequestAddressPath
    case ReleaseAddress => ReleaseAddressPath
  }

  /** Each path constant is "/IpamDriver." followed by its method's name. */
  lemma PathConstants(op: Op)
    ensures |RegisteredPath(op)| > 12
    ensures RegisteredPath(op)[..12] == "/IpamDriver." && RegisteredPath(op)[12..] == OpName(op)
  {
    PathPrefix(op);
    PathSuffix(op);
  }

  lemma PathPrefix(op: Op)
    ensures |RegisteredPath(op)| > 12 && RegisteredPath(op)[..12] == "/IpamDriver."
  {
  }

  lemma PathSuffix(op: Op)
    ensures |RegisteredPath(op)| > 12 && RegisteredPath(op)[12..] == OpName(op)
  {
    if op.GetCapabilities? || op.GetDefaultAddressSpaces? || op.RequestPool? {
      QueryPathSuffix(op);
    } else {
      ReleasePathSuffix(op);
    }
  }

  lemma QueryPathSuffix(op: Op)
    requires op.GetCapabilities? || op.GetDefaultAddressSpaces? || op.RequestPool?
    ensures |RegisteredPath(op)| > 12 && RegisteredPath(op)[12..] == OpName(op)
  {
    match op
    case GetCapabilities => assert CapabilitiesPath[12..] == "GetCapabilities";
    case GetDefaultAddressSpaces => assert AddressSpacesPath[12..] == "GetDefaultAddressSpaces";
    case RequestPool => assert RequestPoolPath[12..] == "RequestPool";
  }

  lemma ReleasePathSuffix(op: Op)
    requires op.ReleasePool? || op.RequestAddress? || op.ReleaseAddress?
    ensures |RegisteredPath(op)| > 12 && RegisteredPath(op)[12..] == OpName(op)
  {
    match op
    case ReleasePool => assert ReleasePoolPath[12..] == "ReleasePool";
    case RequestAddress => assert RequestAddressPath[12..] == "RequestAddress";
    case ReleaseAddress => assert ReleaseAddressPath[12..] == "ReleaseAddress";
  }

  lemma RoutesByConstant(op: Op)
    ensures RegisteredPath(op) in Routes() && Routes()[RegisteredPath(op)] == op
  {
  }

  /** Every handler is registered at "/IpamDriver.<Method>". */
  lemma EveryOpRouted(op: Op)
    ensures OpPath(op) in Routes() && Routes()[OpPath(op)] == op
  {
    var p := RegisteredPath(op);
    PathConstants(op);
    assert p == p[..12] + p[12..];
    RoutesByConstant(op);
  }

  /** ... and nothing else is registered. */
  lemma OnlyOpPathsRouted(path: string)
    requires path in Routes()
    ensures path == OpPath(Routes()[path])
  {
    EveryOpRouted(Routes()[path]);
  }

  /** A rejected body ends the request: only the rejection is recorded and
      the Ipam is not consulted (the outcome is the same whatever it is). */
  lemma DecodeRejectionStops(ipam: Option<Ipam>, other: Option<Ipam>, op: Op, body: string, json: Decoder)
    requires !Decodes(json, op, body)
    ensures HandleOp(ipam, op, body, json) == [DecodeRejected]
    ensures HandleOp(ipam, op, body, json) == HandleOp(other, op, body, json)
  {
  }

  /** Calling a nil Ipam panics once the body has decoded. */
  lemma NilIpamPanics(op: Op, body: string, json: Decoder)
    requires Decodes(json, op, body)
    ensures HandleOp(None, op, body, json) == [Panicked]
  {
  }

  /** On an Ipam error every handler but ReleaseAddress encodes exactly the
      error response carrying the message, with the message as the error
      string, and nothing else. */
  lemma ErrorSingleEnvelope(ipam: Ipam, op: Op, body: string, json: Decoder, msg: string)
    requires Decodes(json, op, body) && !op.ReleaseAddress?
    requires Call(ipam, op, body, json) == Failure(msg)
    ensures HandleOp(Some(ipam), op, body, json) == [Encoded(Error(ErrorResponse(msg)), msg)]
  {
  }

  /** ReleaseAddress as written: on an Ipam error it encodes the error
      response and then the empty map as well. */
  lemma ReleaseAddressErrorWritesTwice(ipam: Ipam, body: string, json: Decoder, msg: string)
    requires Decodes(json, ReleaseAddress, body)
    requires Call(ipam, ReleaseAddress, body, json) == Failure(msg)
    ensures HandleOp(Some(ipam), ReleaseAddress, body, json)
         == [Encoded(Error(ErrorResponse(msg)), msg), Encoded(EmptyMap, "")]
  {
  }

  /** On success the handler encodes the Ipam's response unchanged, or the
      empty map for the two release operations, with an empty error string. */
  lemma SuccessEncodesResult(ipam: Ipam, op: Op, body: string, json: Decoder, res: Response)
    requires Decodes(json, op, body)
    requires Call(ipam, op, body, json) == Success(res)
    ensures HandleOp(Some(ipam), op, body, json) == [Encoded(res, "")]
    ensures op.ReleasePool? || op.ReleaseAddress? ==> res == EmptyMap
  {
  }

  /** Every error envelope a handler encodes carries its own message as the
      error string, and only an error envelope has a non-empty one. */
  lemma EnvelopeCarriesMessage(ipam: Option<Ipam>, op: Op, body: string, json: Decoder)
    ensures var ev := HandleOp(ipam, op, body, json);
      forall k :: 0 <= k < |ev| && ev[k].Encoded? ==>
        (ev[k].response.Error? ==> ev[k].err == ev[k].response.error.err)
        && (!ev[k].response.Error? ==> ev[k].err == "")
  {
  }
}
