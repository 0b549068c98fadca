/** The values that travel as JSON documents and that the model does not look
    into: requests for the network driver and the objects it returns. */
module GoJson {

  datatype Json =
    | JNull
    | JBool(b: bool)
    | JNumber(n: int)
    | JString(s: string)
    | JArray(items: seq<Json>)
    | JObject(members: seq<(string, Json)>)
      /** A Go value that encoding/json refuses to marshal: a channel, a
          function, a NaN or infinite float. */
    | JUnsupported

  /** Whether json.Marshal succeeds on the value. */
  predicate Marshalable(j: Json)
    decreases j
  {
    match j
    case JUnsupported => false
    case JArray(items) => forall k | 0 <= k < |items| :: Marshalable(items[k])
    case JObject(members) => forall k | 0 <= k < |members| :: Marshalable(members[k].1)
    case _ => true
  }
}
