/**
 * The serializer protocol the memo block consumes: a pair of partial
 * conversions between values and stored text. Concrete formats (JSON,
 * pickle, cloudpickle) are not modelled; only the default chain's order is.
 */
module Serializers {
  import opened PyRuntime

  datatype Serializer = Serializer(
    name: string,
    serialize: Value -> Result<string, Exception>,
    deserialize: string -> Result<Value, Exception>)

  /** `deserialize(serialize(v)) == v` whenever `serialize(v)` succeeds. */
  ghost predicate RoundTrips(s: Serializer, v: Value) {
    s.serialize(v).Success? ==> s.deserialize(s.serialize(v).value) == Success(v)
  }

  /** `DEFAULT_SERIALIZER_CHAIN`: the JSON serializer first, then the pickle one. */
  function DefaultSerializerChain(json: Serializer, pickle: Serializer): (chain: seq<Serializer>)
    ensures |chain| == 2 && chain[0] == json && chain[1] == pickle
  {
    [json, pickle]
  }
}
